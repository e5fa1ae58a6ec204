/**
 One Apify actor run for many queries: reserve its projected cost, start it, poll it, read its
 items, and settle the reservation on every way out. Money is in micro-dollars.
 */
module ApifyRuns {
  import opened Common
  import opened CostGuard

  const USD_PLACE_SCRAPED: int := 4_000
  const USD_PLACE_DETAILS: int := 2_000
  const USD_REVIEW: int := 500
  const USD_ACTOR_START: int := 50
  const ACTOR_START_EVENTS: nat := 4
  const MAX_POLLS: nat := 15
  const BUSY_ATTEMPTS: nat := 11

  /** chargedEventCounts; events the price list does not know cost nothing. */
  datatype Counts = Counts(scraped: nat, details: nat, reviews: nat, starts: nat)

  function RunCost(c: Counts): int {
    USD_PLACE_SCRAPED * c.scraped + USD_PLACE_DETAILS * c.details + USD_REVIEW * c.reviews + USD_ACTOR_START * c.starts
  }

  function Projected(places: nat, reviews: nat): int {
    RunCost(Counts(places, places, reviews, ACTOR_START_EVENTS))
  }

  datatype Status = Succeeded | Failed | Aborted | TimedOut | Ongoing

  datatype RunInfo = RunInfo(id: Option<string>, status: Option<Status>, charged: Option<Counts>)

  predicate Terminal(r: RunInfo) {
    r.status.Some? && r.status.value != Ongoing
  }

  function Billed(r: Option<RunInfo>): int {
    if r.Some? && r.value.charged.Some? then RunCost(r.value.charged.value) else 0
  }

  // ---- Starting a run ---------------------------------------------------------------------

  /** What one POST came back with; `busy` is an error body naming a limit that clears itself. */
  datatype Reply =
    | Response(status: int, busy: bool, run: Option<RunInfo>)
    | ConnectError | ConnectTimeout
    | Lost    // a read timeout or any other transport error, after the request may have arrived

  datatype Failure = HttpStatus(status: int, busy: bool) | Balance | NoConnection | Unclear

  /** _send, and the ["data"] of its body. */
  function Outcome(r: Reply): (o: Result)
  {
    match r
    case Response(status, busy, run) =>
      if status in {401, 402, 403} && !busy then Broke(Balance)
      else if !(200 <= status < 300) then Broke(HttpStatus(status, busy))
      else if run.None? then Broke(Unclear)
      else Started(run.value)
    case ConnectError => Broke(NoConnection)
    case ConnectTimeout => Broke(NoConnection)
    case Lost => Broke(Unclear)
  }

  datatype Result = Started(run: RunInfo) | Broke(failure: Failure)

  predicate PostRetryable(f: Failure) {
    (f.HttpStatus? && (f.status == 429 || f.busy)) || f.NoConnection?
  }

  function LastAttempt(f: Failure): nat {
    if f.HttpStatus? && f.busy then BUSY_ATTEMPTS else 3
  }

  predicate NeverStarted(f: Failure) {
    (f.HttpStatus? && f.status < 500) || f.Balance? || f.NoConnection?
  }

  /** Apify and the network as one lookup meets them: the n-th POST's reply and whether it made a
      run, the n-th GET's run (None: it failed), and the dataset (None: unreadable). */
  datatype Service = Service(
    post: nat -> Reply, makes: nat -> bool, poll: nat -> Option<RunInfo>, items: Option<seq<Item>>)

  /** What is taken on trust about Apify: a refusal below 500, a busy refusal or a connection
      that was never made leaves no run behind. */
  ghost predicate Honest(s: Service) {
    forall n: nat {:trigger s.makes(n)} | s.makes(n) :: !Refused(s.post(n))
  }

  predicate Refused(r: Reply) {
    || r.ConnectError? || r.ConnectTimeout?
    || (r.Response? && !(200 <= r.status < 300) && (r.status < 500 || r.busy))
  }

  /** The n-th attempt failed in a way that is tried again. */
  ghost predicate TriedAgain(s: Service, n: nat) {
    var o := Outcome(s.post(n));
    o.Broke? && PostRetryable(o.failure) && n + 1 < LastAttempt(o.failure)
  }

  method Start(s: Service) returns (o: Result, attempts: nat)
    ensures 1 <= attempts <= BUSY_ATTEMPTS && o == Outcome(s.post(attempts - 1))
    ensures !TriedAgain(s, attempts - 1) && forall n: nat | n < attempts - 1 :: TriedAgain(s, n)
  {
    attempts := 0;
    while true
      invariant attempts < BUSY_ATTEMPTS
      invariant forall n: nat | n < attempts :: TriedAgain(s, n)
      decreases BUSY_ATTEMPTS - attempts
    {
      o := Outcome(s.post(attempts));
      attempts := attempts + 1;
      if o.Started? || !PostRetryable(o.failure) || attempts >= LastAttempt(o.failure) {
        return;
      }
    }
  }

  /** So one lookup never makes two runs, and refunds only when it made none. */
  lemma AtMostOneRunIsMade(s: Service, attempts: nat)
    requires Honest(s) && attempts >= 1 && forall n: nat | n < attempts - 1 :: TriedAgain(s, n)
    ensures forall n: nat | n < attempts && s.makes(n) :: n == attempts - 1
    ensures var o := Outcome(s.post(attempts - 1));
      o.Broke? && NeverStarted(o.failure) ==> forall n: nat | n < attempts :: !s.makes(n)
  {
    forall n: nat | n < attempts && TriedAgain(s, n) ensures !s.makes(n) {}
  }

  // ---- Items ------------------------------------------------------------------------------

  datatype RawReview = RawReview(date: string, stars: int, text: string, reviewer: string)
  datatype Review = Review(date: string, stars: int, text: string)

  datatype Item = Item(searchString: Option<string>, inputPlaceId: string, facts: string, reviews: seq<RawReview>)
  datatype Place = Place(facts: string, reviews: seq<Review>)

  function Normalized(i: Item): Place {
    Place(i.facts, seq(|i.reviews|, k requires 0 <= k < |i.reviews| =>
      Review(i.reviews[k].date, i.reviews[k].stars, i.reviews[k].text)))
  }

  function ReviewCount(items: seq<Item>): nat {
    if items == [] then 0 else ReviewCount(items[..|items| - 1]) + |items[|items| - 1].reviews|
  }

  /** The query an item answers: its search string if that was asked, else its place id. */
  predicate Answers(i: Item, q: string, asked: seq<string>) {
    if i.searchString.Some? && i.searchString.value in asked then i.searchString.value == q
    else i.inputPlaceId != "" && q == "place_id:" + i.inputPlaceId
  }

  /** Each query asked gets the first item that answers it, or None. */
  ghost predicate Matched(asked: seq<string>, items: seq<Item>, r: map<string, Option<Place>>) {
    && r.Keys == (set q | q in asked)
    && forall q | q in asked :: FirstAnswer(asked, items, q, r[q])
  }

  ghost predicate FirstAnswer(asked: seq<string>, items: seq<Item>, q: string, p: Option<Place>) {
    if p.None? then forall i | 0 <= i < |items| :: !Answers(items[i], q, asked)
    else exists i | 0 <= i < |items| :: IsFirst(asked, items, q, i) && p.value == Normalized(items[i])
  }

  ghost predicate IsFirst(asked: seq<string>, items: seq<Item>, q: string, i: nat) {
    && i < |items| && Answers(items[i], q, asked)
    && forall j | 0 <= j < i :: !Answers(items[j], q, asked)
  }

  method Match(asked: seq<string>, items: seq<Item>) returns (r: map<string, Option<Place>>)
    ensures Matched(asked, items, r)
  {
    r := map q | q in asked :: None;
    var n := 0;
    while n < |items|
      invariant 0 <= n <= |items|
      invariant Matched(asked, items[..n], r)
    {
      var item := items[n];
      ghost var before := r;
      var key := item.searchString;
      if (key.None? || key.value !in r) && item.inputPlaceId != "" {
        key := Some("place_id:" + item.inputPlaceId);
      }
      if key.Some? && key.value in r && r[key.value].None? {
        r := r[key.value := Some(Normalized(item))];
      }
      forall q | q in asked ensures FirstAnswer(asked, items[..n + 1], q, r[q]) {
        OneMoreItem(asked, items, n, q, before[q]);
        assert Answers(item, q, asked) <==> key == Some(q);
      }
      n := n + 1;
    }
    assert items[..n] == items;
  }

  lemma OneMoreItem(asked: seq<string>, items: seq<Item>, n: nat, q: string, p: Option<Place>)
    requires n < |items| && FirstAnswer(asked, items[..n], q, p)
    ensures p.Some? || !Answers(items[n], q, asked) ==> FirstAnswer(asked, items[..n + 1], q, p)
    ensures p.None? && Answers(items[n], q, asked) ==>
      FirstAnswer(asked, items[..n + 1], q, Some(Normalized(items[n])))
  {
    if p.Some? {
      var i :| 0 <= i < n && IsFirst(asked, items[..n], q, i) && p.value == Normalized(items[..n][i]);
      assert IsFirst(asked, items[..n + 1], q, i);
    } else if Answers(items[n], q, asked) {
      forall j | 0 <= j < n ensures !Answers(items[j], q, asked) {
        assert items[..n][j] == items[j];
      }
      assert IsFirst(asked, items[..n + 1], q, n);
    } else {
      forall j | 0 <= j < n + 1 ensures !Answers(items[j], q, asked) {
        if j < n { assert items[..n][j] == items[j]; }
      }
    }
  }

  // ---- Following a run --------------------------------------------------------------------

  /** The run as known after n good polls. */
  function RunAfter(s: Service, first: RunInfo, n: nat): RunInfo {
    if n > 0 && s.poll(n - 1).Some? then s.poll(n - 1).value else first
  }

  /** n polls were good, none after a terminal status, and polling ended for one of three reasons. */
  ghost predicate Followed(s: Service, first: RunInfo, n: nat) {
    && n <= MAX_POLLS + 1
    && (forall k: nat | k < n :: s.poll(k).Some? && !Terminal(RunAfter(s, first, k)))
    && (Terminal(RunAfter(s, first, n)) || n == MAX_POLLS + 1 || s.poll(n).None?)
  }

  method Follow(s: Service, first: RunInfo) returns (last: RunInfo, polls: nat)
    ensures Followed(s, first, polls) && last == RunAfter(s, first, polls)
  {
    last, polls := first, 0;
    while polls < MAX_POLLS + 1
      invariant polls <= MAX_POLLS + 1 && last == RunAfter(s, first, polls)
      invariant forall k: nat | k < polls :: s.poll(k).Some? && !Terminal(RunAfter(s, first, k))
    {
      if Terminal(last) { return; }
      var reply := s.poll(polls);
      if reply.None? { return; }
      last, polls := reply.value, polls + 1;
    }
  }

  // ---- The lookup -------------------------------------------------------------------------

  datatype Ending =
    | NoQueries
    | Wall(verdict: Verdict)              // nothing reserved
    | NotStarted(failure: Failure)
    | NotFinished                         // failed, lost, aborted, or its items unreadable
    | Found(places: map<string, Option<Place>>)

  /** What one lookup did. */
  datatype Trip = Trip(ending: Ending, attempts: nat, polls: nat, last: Option<RunInfo>, aborted: bool, charged: int)

  /** The clock as the three guard calls read it, and the reserved_at stamp. */
  datatype Clock = Clock(check: int, stamp: int, record: int, settle: int)

  /** The way out, given what came back. */
  ghost predicate EndsAs(asked: seq<string>, s: Service, t: Trip) {
    && 1 <= t.attempts <= BUSY_ATTEMPTS
    && !TriedAgain(s, t.attempts - 1) && (forall n: nat | n < t.attempts - 1 :: TriedAgain(s, n))
    && match Outcome(s.post(t.attempts - 1))
       case Broke(f) => t.ending == NotStarted(f) && t.last.None? && t.polls == 0 && !t.aborted
       case Started(first) =>
         if first.id.None? then t.ending == NotFinished && t.last == Some(first) && t.polls == 0 && !t.aborted
         else
           && Followed(s, first, t.polls) && t.last == Some(RunAfter(s, first, t.polls))
           && (t.aborted <==> !Terminal(t.last.value))
           && (t.ending.Found? <==> t.last.value.status == Some(Succeeded) && s.items.Some?)
           && (t.ending.Found? ==> Matched(asked, s.items.value, t.ending.places))
           && (t.ending.Found? || t.ending.NotFinished?)
  }

  /** The money: a provable non-start refunds everything; success costs what its items project or
      what Apify counted, whichever is more; anything else keeps at least the reservation. */
  ghost predicate ChargedFor(reserved: int, s: Service, t: Trip) {
    match t.ending
    case NotStarted(f) => t.charged == if NeverStarted(f) then 0 else reserved
    case Found(_) => s.items.Some? &&
      t.charged == Max(Projected(|s.items.value|, ReviewCount(s.items.value)), Billed(t.last))
    case NotFinished => t.charged == Max(reserved, Billed(t.last))
    case _ => false
  }

  /** The run itself, from the POST to the charge the settlement will book. */
  method OneRun(asked: seq<string>, reserved: int, s: Service) returns (t: Trip)
    requires reserved > 0
    ensures EndsAs(asked, s, t) && ChargedFor(reserved, s, t)
  {
    var charged := reserved;
    var started, attempts := Start(s);
    t := Trip(NotFinished, attempts, 0, None, false, 0);
    match started {
      case Broke(f) =>
        if NeverStarted(f) { charged := 0; }
        t := t.(ending := NotStarted(f));
      case Started(first) =>
        t := t.(last := Some(first));
        if first.id.Some? {
          var last, polls := Follow(s, first);
          t := t.(polls := polls, last := Some(last), aborted := !Terminal(last));
          if last.status == Some(Succeeded) && s.items.Some? {
            charged := Projected(|s.items.value|, ReviewCount(s.items.value));
            var places := Match(asked, s.items.value);
            t := t.(ending := Found(places));
          }
        }
    }
    t := t.(charged := Max(charged, Billed(t.last)));
  }

  class Client {
    const guard: Store
    const budget: bool       // false: no Redis was given
    const dailyCap: int
    const totalCap: int

    constructor (guard: Store, budget: bool, dailyCap: int, totalCap: int)
      ensures this.guard == guard && this.budget == budget && this.dailyCap == dailyCap && this.totalCap == totalCap
    {
      this.guard, this.budget, this.dailyCap, this.totalCap := guard, budget, dailyCap, totalCap;
    }

    function CheckBudget(projected: int, now: int): Verdict
      reads guard`counters
    {
      if budget then LaneVerdict(Get(guard.counters, ApifyTotal), Get(guard.counters, DailyKey(now, APIFY)),
                                 projected, Some(totalCap), dailyCap)
      else Pass
    }

    method Lookup(queries: seq<string>, maxReviews: nat, s: Service, clock: Clock) returns (t: Trip)
      modifies guard
      ensures queries == [] <==> t.ending == NoQueries
      ensures var reserved := Projected(|Distinct(queries)|, |Distinct(queries)| * maxReviews);
        if queries == [] || old(CheckBudget(reserved, clock.check)) != Pass then
          && (queries != [] ==> t.ending == Wall(old(CheckBudget(reserved, clock.check))))
          && guard.counters == old(guard.counters) && t.attempts == 0 && t.charged == 0
        else
          && EndsAs(Distinct(queries), s, t) && ChargedFor(reserved, s, t)
          && guard.counters == if !budget then old(guard.counters) else
               ApifySettled(ApifyRecorded(old(guard.counters), reserved, clock.record),
                            reserved, t.charged, Aware(clock.stamp, 0), clock.settle)
    {
      t := Trip(NoQueries, 0, 0, None, false, 0);
      if queries == [] { return; }
      var asked := Distinct(queries);
      var reserved := Projected(|asked|, |asked| * maxReviews);
      ProjectionIsPositive(|asked|, |asked| * maxReviews);
      if budget {
        var verdict := guard.PreDispatchCheckApify(reserved, dailyCap, totalCap, clock.check);
        if verdict != Pass { t := t.(ending := Wall(verdict)); return; }
      }
      if budget && reserved > 0 {
        guard.RecordApifySpend(reserved, clock.record);
      }
      t := OneRun(asked, reserved, s);
      if budget {
        guard.SettleApifySpend(reserved, t.charged, Aware(clock.stamp, 0), clock.settle);
      }
    }
  }

  lemma ProjectionIsPositive(places: nat, reviews: nat)
    ensures Projected(places, reviews) >= USD_ACTOR_START * ACTOR_START_EVENTS > 0
  {
  }

  /** Reserving and settling moves the total by exactly the final charge, and on one day the
      daily key too; a run settled on a later day leaves its reservation where it was booked and
      only adds its overrun. */
  lemma SettlingBooksTheCharge(c: Counters, reserved: int, charged: int, clock: Clock)
    requires reserved >= 0 && charged >= 0 && Get(c, ApifyTotal) >= 0
    requires Get(c, DailyKey(clock.record, APIFY)) >= 0 && Get(c, DailyKey(clock.settle, APIFY)) >= 0
    ensures var booked' := ApifyRecorded(c, reserved, clock.record);
      var c' := ApifySettled(booked', reserved, charged, Aware(clock.stamp, 0), clock.settle);
      var booked, today := DailyKey(clock.record, APIFY), DailyKey(clock.settle, APIFY);
      && Get(c', ApifyTotal) == Get(c, ApifyTotal) + charged
      && (DayOf(clock.stamp) == DayOf(clock.record) == DayOf(clock.settle) ==>
            Get(c', today) == Get(c, today) + charged)
      && (DayOf(clock.stamp) != DayOf(clock.settle) && booked != today ==>
            && Get(c', booked) == Get(c, booked) + reserved
            && Get(c', today) == Get(c, today) + Max(0, charged - reserved))
  {
  }

  /** Exactly when today's key, too, moves by the charge: the reservation was recorded today and
      either stamped today or not refunded; or it was recorded on an earlier day, and nothing was
      charged or nothing reserved. A stamp just before the midnight that the record follows keeps
      the refund of a run from ever landing. */
  lemma TodayMovesByTheChargeIff(c: Counters, reserved: int, charged: int, clock: Clock)
    requires reserved >= 0 && charged >= 0 && clock.stamp <= clock.record <= clock.settle
    requires Get(c, DailyKey(clock.record, APIFY)) >= 0 && Get(c, DailyKey(clock.settle, APIFY)) >= 0
    ensures var booked' := ApifyRecorded(c, reserved, clock.record);
      var c' := ApifySettled(booked', reserved, charged, Aware(clock.stamp, 0), clock.settle);
      var today := DailyKey(clock.settle, APIFY);
      Get(c', today) == Get(c, today) + charged <==>
        (if DayOf(clock.record) == DayOf(clock.settle)
         then DayOf(clock.stamp) == DayOf(clock.settle) || charged >= reserved
         else charged == 0 || reserved == 0)
  {
    var booked := ApifyRecorded(c, reserved, clock.record);
    assert DayOf(clock.stamp) <= DayOf(clock.record) <= DayOf(clock.settle);
    assert Get(booked, DailyKey(clock.settle, APIFY)) == Get(c, DailyKey(clock.settle, APIFY)) +
      if DayOf(clock.record) == DayOf(clock.settle) then reserved else 0;
  }

  /** On the ground: whatever comes back from an honest service, at most one run was made; when
      one was made the lookup is charged at least what Apify last said it billed, and at least
      the reservation unless the run succeeded; nothing is charged iff the start provably failed. */
  lemma NoRunGoesUncharged(asked: seq<string>, s: Service, reserved: int, t: Trip)
    requires Honest(s) && reserved > 0 && EndsAs(asked, s, t) && ChargedFor(reserved, s, t)
    ensures forall m: nat, n: nat | m < t.attempts && n < t.attempts && s.makes(m) && s.makes(n) :: m == n
    ensures (exists n: nat | n < t.attempts :: s.makes(n)) ==> t.charged > 0
    ensures t.charged >= Billed(t.last)
    ensures t.charged < reserved ==> t.ending.Found? || (t.ending.NotStarted? && NeverStarted(t.ending.failure))
    ensures t.charged == 0 <==> t.ending.NotStarted? && NeverStarted(t.ending.failure)
  {
    AtMostOneRunIsMade(s, t.attempts);
    if t.ending.Found? {
      ProjectionIsPositive(|s.items.value|, ReviewCount(s.items.value));
    }
  }

  // ---- Lookups at once --------------------------------------------------------------------

  /** The total key under workers that look up one lot after another and interleave command by
      command: a worker has checked the cap, then reserved, then settles. */
  datatype Phase = Idle | Checked(amount: nat) | Live(reserved: nat) | Correcting(missing: nat)

  /** `charged`: all that its ended runs were charged. */
  datatype Worker = Worker(charged: nat, phase: Phase)

  /** `overrun`: what the ended runs were charged beyond their reservations. */
  datatype World = World(total: int, workers: seq<Worker>, overrun: nat)

  datatype Label =
    | Check(i: nat, amount: nat) | Refuse(i: nat) | Reserve(i: nat) | Settle(i: nat, charged: nat) | Correct(i: nat)

  function Next(cap: int, w: World, l: Label): World {
    if l.i >= |w.workers| then w
    else
      var p := w.workers[l.i];
      match l
      case Check(i, amount) =>
        if p.phase.Idle? && w.total + amount <= cap then w.(workers := w.workers[i := p.(phase := Checked(amount))])
        else w
      case Refuse(i) =>
        if p.phase.Checked? then w.(workers := w.workers[i := p.(phase := Idle)]) else w
      case Reserve(i) =>
        if p.phase.Checked?
        then w.(total := w.total + p.phase.amount, workers := w.workers[i := p.(phase := Live(p.phase.amount))]) else w
      case Settle(i, charged) =>
        if p.phase.Live? then
          var total := w.total + charged - p.phase.reserved;
          var phase := if total < 0 then Correcting(-total) else Idle;
          World(total, w.workers[i := Worker(p.charged + charged, phase)],
                w.overrun + Max(0, charged - p.phase.reserved))
        else w
      case Correct(i) =>
        if p.phase.Correcting?
        then w.(total := w.total + p.phase.missing, workers := w.workers[i := p.(phase := Idle)]) else w
  }

  function RunAll(cap: int, n: nat, tr: seq<Label>): World {
    if tr == [] then World(0, seq(n, _ => Worker(0, Idle)), 0)
    else Next(cap, RunAll(cap, n, tr[..|tr| - 1]), tr[|tr| - 1])
  }

  /** A settlement nobody interrupts moves the total as the guard's settlement does. */
  lemma SettleAlone(cap: int, w: World, i: nat, charged: nat, c: Counters, at: Instant, now: int)
    requires i < |w.workers| && w.workers[i].phase.Live? && Get(c, ApifyTotal) == w.total
    ensures var p, w' := w.workers[i], Next(cap, Next(cap, w, Settle(i, charged)), Correct(i));
      && w'.total == Get(ApifySettled(c, p.phase.reserved, charged, at, now), ApifyTotal)
      && w'.workers == w.workers[i := Worker(p.charged + charged, Idle)]
  {
    var w1 := Next(cap, w, Settle(i, charged));
    var done := Worker(w.workers[i].charged + charged, Idle);
    assert w1.workers[i := done] == w.workers[i := done];
    assert w1.total >= 0 ==> w1.workers == w.workers[i := done];
  }

  /** A check that passes and a reservation nobody interrupts are the guard's check of the total
      and its record. */
  lemma ReserveAlone(cap: int, w: World, i: nat, amount: nat, c: Counters, dailyCap: int, now: int)
    requires i < |w.workers| && w.workers[i].phase.Idle? && Get(c, ApifyTotal) == w.total
    ensures var w' := Next(cap, Next(cap, w, Check(i, amount)), Reserve(i));
      var verdict := LaneVerdict(w.total, Get(c, DailyKey(now, APIFY)), amount, Some(cap), dailyCap);
      var wall := verdict == ProviderBalanceError;
      && (wall <==> w.total + amount > cap) && (wall ==> w' == w)
      && (!wall ==> w'.total == Get(ApifyRecorded(c, amount, now), ApifyTotal) && w'.workers[i].phase == Live(amount))
  {
  }

  /** A live run stands for its reservation, an ended one for its charge. */
  function StandsFor(p: Worker): int {
    p.charged + if p.phase.Live? then p.phase.reserved else 0
  }

  /** Checked, and not on the total yet. */
  function Owes(p: Worker): int {
    if p.phase.Checked? then p.phase.amount else 0
  }

  function Standing(ps: seq<Worker>): (xs: seq<int>)
    ensures |xs| == |ps|
  {
    seq(|ps|, i requires 0 <= i < |ps| => StandsFor(ps[i]))
  }

  function Owing(ps: seq<Worker>): (xs: seq<int>)
    ensures |xs| == |ps|
  {
    seq(|ps|, i requires 0 <= i < |ps| => Owes(ps[i]))
  }

  predicate Conserved(w: World) {
    && w.total == Sum(Standing(w.workers))
    && forall i | 0 <= i < |w.workers| :: !w.workers[i].phase.Correcting?
  }

  lemma StepConserves(cap: int, w: World, l: Label)
    requires Conserved(w)
    ensures Conserved(Next(cap, w, l))
  {
    var w' := Next(cap, w, l);
    if w' != w {
      var xs, i := Standing(w.workers), l.i;
      SumNonNegative(xs);
      SumUpdate(xs, i, StandsFor(w'.workers[i]));
      assert Standing(w'.workers) == xs[i := StandsFor(w'.workers[i])];
    }
  }

  /** At every moment of every interleaving the total is the charges of the ended runs plus the
      reservations of the live ones, and its floor never has anything to correct. */
  lemma {:induction false} TotalIsConserved(cap: int, n: nat, tr: seq<Label>)
    ensures Conserved(RunAll(cap, n, tr))
  {
    if tr == [] {
      SumZero(Standing(RunAll(cap, n, []).workers));
    } else {
      TotalIsConserved(cap, n, tr[..|tr| - 1]);
      StepConserves(cap, RunAll(cap, n, tr[..|tr| - 1]), tr[|tr| - 1]);
    }
  }

  /** No projection checked is dearer than `most`. */
  predicate AtMost(tr: seq<Label>, most: nat) {
    forall l | l in tr && l.Check? :: l.amount <= most
  }

  /** Recorded plus owed: the cap, one projection for every worker but one, and the overruns. */
  predicate Capped(cap: int, most: nat, w: World) {
    && |w.workers| > 0 && (forall i | 0 <= i < |w.workers| :: Owes(w.workers[i]) <= most)
    && w.total + Sum(Owing(w.workers)) <= cap + (|w.workers| - 1) * most + w.overrun
  }

  /** What one worker's change does to what is owed; the others owe at most one projection each. */
  lemma OwedByOthers(ps: seq<Worker>, i: nat, p: Worker, most: nat)
    requires i < |ps| && forall j | 0 <= j < |ps| :: Owes(ps[j]) <= most
    ensures Sum(Owing(ps[i := p])) == Sum(Owing(ps)) - Owes(ps[i]) + Owes(p)
    ensures Sum(Owing(ps)) - Owes(ps[i]) <= (|ps| - 1) * most
  {
    var xs := Owing(ps);
    SumUpdate(xs, i, Owes(p));
    assert Owing(ps[i := p]) == xs[i := Owes(p)];
    SumButOne(xs, i, most);
  }

  lemma {:induction false} SumAtMost(xs: seq<int>, most: nat)
    requires forall i | 0 <= i < |xs| :: xs[i] <= most
    ensures Sum(xs) <= |xs| * most
  {
    if xs != [] {
      SumAtMost(xs[1..], most);
      assert |xs| * most == (|xs| - 1) * most + most;
    }
  }

  lemma SumButOne(xs: seq<int>, i: nat, most: nat)
    requires i < |xs| && forall j | 0 <= j < |xs| :: xs[j] <= most
    ensures Sum(xs) - xs[i] <= (|xs| - 1) * most
  {
    var rest := xs[..i] + xs[i + 1..];
    SumAtMost(rest, most);
    SumAppend(xs[..i], xs[i + 1..]);
    SumAppend(xs[..i], [xs[i]]);
    SumAppend(xs[..i] + [xs[i]], xs[i + 1..]);
    assert xs == xs[..i] + [xs[i]] + xs[i + 1..];
    assert Sum([xs[i]]) == xs[i] + Sum([]);
  }

  lemma StepKeepsCap(cap: int, most: nat, w: World, l: Label)
    requires Capped(cap, most, w) && Conserved(w) && (l.Check? ==> l.amount <= most)
    ensures Capped(cap, most, Next(cap, w, l))
  {
    var w' := Next(cap, w, l);
    if w' != w {
      OwedByOthers(w.workers, l.i, w'.workers[l.i], most);
      assert w'.workers == w.workers[l.i := w'.workers[l.i]];
      hide Standing, Owing;
    }
  }

  /** With W workers, whatever their commands' order, the total plus what is checked and not yet
      reserved stays within the cap plus W - 1 of the dearest projection plus what ended runs cost
      beyond theirs. */
  lemma {:induction false} TotalStaysWithinTheBound(cap: nat, most: nat, workers: nat, tr: seq<Label>)
    requires workers > 0 && AtMost(tr, most)
    ensures Capped(cap, most, RunAll(cap, workers, tr)) && |RunAll(cap, workers, tr).workers| == workers
    ensures var w := RunAll(cap, workers, tr);
      w.total + Sum(Owing(w.workers)) <= cap + (workers - 1) * most + w.overrun
  {
    if tr == [] {
      var ps := RunAll(cap, workers, []).workers;
      SumZero(Owing(ps));
      assert (workers - 1) * most >= 0;
    } else {
      var init, l := tr[..|tr| - 1], tr[|tr| - 1];
      assert AtMost(init, most) && l in tr;
      TotalStaysWithinTheBound(cap, most, workers, init);
      TotalIsConserved(cap, workers, init);
      StepKeepsCap(cap, most, RunAll(cap, workers, init), l);
      assert Capped(cap, most, RunAll(cap, workers, tr));
      hide Conserved, Owing;
    }
  }

  /** All check before any reserves. */
  function Rush(workers: nat, most: nat): seq<Label> {
    seq(workers, (i: nat) => Check(i, most)) + seq(workers, (i: nat) => Reserve(i))
  }

  lemma {:induction false} RushChecks(cap: int, workers: nat, most: nat, n: nat)
    requires n <= workers && most <= cap
    ensures RunAll(cap, workers, Rush(workers, most)[..n]) ==
      World(0, seq(workers, i => Worker(0, if i < n then Checked(most) else Idle)), 0)
  {
    if n > 0 {
      RushChecks(cap, workers, most, n - 1);
      var tr := Rush(workers, most)[..n];
      assert tr[..n - 1] == Rush(workers, most)[..n - 1] && tr[n - 1] == Check(n - 1, most);
    }
  }

  lemma {:induction false} RushReserves(cap: int, workers: nat, most: nat, n: nat)
    requires n <= workers && most <= cap
    ensures RunAll(cap, workers, Rush(workers, most)[..workers + n]) ==
      World(n * most, seq(workers, i => Worker(0, if i < n then Live(most) else Checked(most))), 0)
  {
    if n == 0 {
      RushChecks(cap, workers, most, workers);
    } else {
      RushReserves(cap, workers, most, n - 1);
      var tr := Rush(workers, most)[..workers + n];
      assert tr[..workers + n - 1] == Rush(workers, most)[..workers + n - 1] && tr[workers + n - 1] == Reserve(n - 1);
      assert n * most == (n - 1) * most + most;
      hide Rush;
      var w := RunAll(cap, workers, tr[..workers + n - 1]);
      assert w.workers[n - 1] == Worker(0, Checked(most));
      assert Next(cap, w, Reserve(n - 1)).total == n * most;
      assert RunAll(cap, workers, tr) == Next(cap, w, Reserve(n - 1));
    }
  }

  /** The bound is reached, by any number of workers, when the cap is one projection. */
  lemma TheBoundIsReached(most: nat, workers: nat)
    requires workers > 0
    ensures RunAll(most, workers, Rush(workers, most)).total == most + (workers - 1) * most
  {
    RushReserves(most, workers, most, workers);
    assert Rush(workers, most)[..workers + workers] == Rush(workers, most);
    assert workers * most == most + (workers - 1) * most;
  }
}
