/**
 A lookup told from what the network and Apify sent: which replies are tried again, which prove
 that no run exists, what each way out costs, and what the counters are left with.
 */
module ApifyReplies {
  import opened Common
  import opened CostGuard
  import opened ApifyRuns

  // ---- Replies to the POST --------------------------------------------------------------------

  /** No run exists: the connection was never made, or Apify refused with less than a 500. */
  predicate NoRun(r: Reply) {
    || r.ConnectError? || r.ConnectTimeout?
    || (r.Response? && (r.status < 200 || 300 <= r.status < 500))
  }

  /** A run exists, and Apify said which. */
  predicate Made(r: Reply) {
    r.Response? && 200 <= r.status <= 299 && r.run.Some?
  }

  lemma StartedIffMade(r: Reply)
    ensures Outcome(r).Started? <==> Made(r)
    ensures Made(r) ==> Outcome(r).run == r.run.value
  {
  }

  lemma NeverStartedIffNoRun(r: Reply)
    requires Outcome(r).Broke?
    ensures NeverStarted(Outcome(r).failure) <==> NoRun(r)
  {
  }

  /** Token, plan limit or account: the caller is told that the balance is gone. */
  lemma BalanceIff(r: Reply)
    ensures Outcome(r) == Broke(Balance) <==> r.Response? && 401 <= r.status <= 403 && !r.busy
  {
  }

  /** The n-th POST is repeated after a 429, a connection never made, or a limit that clears itself:
      the last up to eleven times, the others up to three. */
  lemma TriedAgainIff(s: Service, n: nat)
    ensures TriedAgain(s, n) <==>
      var r := s.post(n);
      || (n < 2 && (r.ConnectError? || r.ConnectTimeout?))
      || (n < 2 && r.Response? && r.status == 429)
      || (n < 10 && r.Response? && r.busy && (r.status < 200 || r.status >= 300))
  {
  }

  /** The trust asked of Apify is that a run is never behind a reply that proves there is none, nor
      behind a busy one. */
  lemma RefusedIff(r: Reply)
    ensures Refused(r) <==> NoRun(r) || (r.Response? && r.status >= 500 && r.busy)
  {
  }

  // ---- Prices ---------------------------------------------------------------------------------

  /** Micro-dollars: 6,000 a place with its details, 500 a review, 200 a start. */
  lemma Prices(places: nat, reviews: nat)
    ensures Projected(places, reviews) == 6_000 * places + 500 * reviews + 200
  {
  }

  lemma EventPrices(c: Counts)
    ensures RunCost(c) == 4_000 * c.scraped + 2_000 * c.details + 500 * c.reviews + 50 * c.starts
  {
  }

  lemma {:induction false} ReviewCountIsTheSum(items: seq<Item>)
    ensures ReviewCount(items) == Sum(seq(|items|, i requires 0 <= i < |items| => |items[i].reviews|))
  {
    var all := seq(|items|, i requires 0 <= i < |items| => |items[i].reviews|);
    if items != [] {
      var n := |items| - 1;
      var init := seq(n, i requires 0 <= i < n => |items[..n][i].reviews|);
      ReviewCountIsTheSum(items[..n]);
      SumAppend(init, [all[n]]);
      assert all == init + [all[n]] && Sum([all[n]]) == all[n] + Sum([]);
    }
  }

  // ---- What a lookup costs --------------------------------------------------------------------

  /** What Apify last said it charged for. */
  function Told(last: Option<RunInfo>): int {
    if last.Some? && last.value.charged.Some? then
      var c := last.value.charged.value;
      4_000 * c.scraped + 2_000 * c.details + 500 * c.reviews + 50 * c.starts
    else 0
  }

  predicate Over(r: RunInfo) {
    r.status in {Some(Succeeded), Some(Failed), Some(Aborted), Some(TimedOut)}
  }

  lemma TerminalIff(r: RunInfo)
    ensures Terminal(r) <==> Over(r)
  {
  }

  /** The charge, from the last POST's reply, the last state of the run and the items read. */
  lemma CostOfTheReplies(asked: seq<string>, s: Service, reserved: int, t: Trip)
    requires reserved > 0 && EndsAs(asked, s, t) && ChargedFor(reserved, s, t)
    ensures var r := s.post(t.attempts - 1);
      var succeeded := Made(r) && r.run.value.id.Some? && t.last.Some? && t.last.value.status == Some(Succeeded)
                       && s.items.Some?;
      && (NoRun(r) ==> t.charged == 0)
      && (!NoRun(r) && !Made(r) ==> t.charged == reserved)
      && (Made(r) && !succeeded ==> t.charged == if Told(t.last) > reserved then Told(t.last) else reserved)
      && (succeeded ==>
            var projected := 6_000 * |s.items.value| + 500 * ReviewCount(s.items.value) + 200;
            t.charged == if Told(t.last) > projected then Told(t.last) else projected)
  {
    var r := s.post(t.attempts - 1);
    StartedIffMade(r);
    if Outcome(r).Broke? { NeverStartedIffNoRun(r); }
    assert Billed(t.last) == Told(t.last);
    if s.items.Some? { Prices(|s.items.value|, ReviewCount(s.items.value)); }
    hide Outcome, NeverStarted, TriedAgain, Followed, Matched, RunAfter, Terminal, ReviewCount;
  }

  /** So nothing is charged exactly when the last reply proves that no run exists. */
  lemma FreeIffNoRun(asked: seq<string>, s: Service, reserved: int, t: Trip)
    requires reserved > 0 && EndsAs(asked, s, t) && ChargedFor(reserved, s, t)
    ensures t.charged == 0 <==> NoRun(s.post(t.attempts - 1))
  {
    CostOfTheReplies(asked, s, reserved, t);
    hide NoRun, Made, EndsAs, ChargedFor, Told, ReviewCount;
  }

  /** A run is polled at most sixteen times, and is aborted exactly when it was not over then. */
  lemma PollsAndAbort(asked: seq<string>, s: Service, t: Trip)
    requires EndsAs(asked, s, t)
    ensures t.polls <= 16
    ensures t.aborted ==> t.last.Some? && !Over(t.last.value) && Made(s.post(t.attempts - 1))
    ensures Made(s.post(t.attempts - 1)) && s.post(t.attempts - 1).run.value.id.Some? ==>
      && t.last.Some? && (t.aborted <==> !Over(t.last.value))
      && (t.polls < 16 && !Over(t.last.value) ==> s.poll(t.polls).None?)
      && (t.polls > 0 ==> t.last == s.poll(t.polls - 1))
      && (t.polls == 0 ==> t.last == s.post(t.attempts - 1).run)
  {
    StartedIffMade(s.post(t.attempts - 1));
    if t.last.Some? { TerminalIff(t.last.value); }
    hide Outcome, TriedAgain, Matched, Terminal, Over;
  }

  // ---- The whole lookup, on the counters --------------------------------------------------------

  /** A lookup is not attempted exactly when its projection would exceed a cap of a guard that is there.
      One whose last reply proves that no run exists leaves the total where it was; any other
      that got past the walls moves it by the charge. */
  method LookupBooks(client: Client, queries: seq<string>, reviews: nat, s: Service, clock: Clock) returns (t: Trip)
    requires Get(client.guard.counters, ApifyTotal) >= 0
    requires Get(client.guard.counters, DailyKey(clock.record, APIFY)) >= 0
    modifies client.guard
    ensures Get(client.guard.counters, ApifyTotal) ==
      Get(old(client.guard.counters), ApifyTotal) + if client.budget then t.charged else 0
    ensures t.attempts > 0 ==> (t.charged == 0 <==> NoRun(s.post(t.attempts - 1)))
    ensures t.attempts == 0 ==> t.charged == 0 && client.guard.counters == old(client.guard.counters)
    ensures queries != [] ==>
      var projected := 6_000 * |Distinct(queries)| + 500 * (|Distinct(queries)| * reviews) + 200;
      (t.attempts == 0 <==>
        client.budget && (Get(old(client.guard.counters), ApifyTotal) + projected > client.totalCap ||
                          Get(old(client.guard.counters), DailyKey(clock.check, APIFY)) + projected > client.dailyCap))
  {
    ghost var before := client.guard.counters;
    Prices(|Distinct(queries)|, |Distinct(queries)| * reviews);
    t := client.Lookup(queries, reviews, s, clock);
    if t.attempts > 0 {
      var reserved := Projected(|Distinct(queries)|, |Distinct(queries)| * reviews);
      FreeIffNoRun(Distinct(queries), s, reserved, t);
      CostOfTheReplies(Distinct(queries), s, reserved, t);
      hide EndsAs, ChargedFor, NoRun, Made;
      TotalMoves(before, reserved, t.charged, clock);
    }
  }

  lemma TotalMoves(c: Counters, reserved: int, charged: int, clock: Clock)
    requires reserved >= 0 && charged >= 0 && Get(c, ApifyTotal) >= 0
    ensures Get(ApifySettled(ApifyRecorded(c, reserved, clock.record), reserved, charged, Aware(clock.stamp, 0),
                             clock.settle), ApifyTotal) == Get(c, ApifyTotal) + charged
  {
  }

  // ---- Items ------------------------------------------------------------------------------------

  /** An item answers the search string it carries, if that was asked, and else the query of the
      place id it came from. */
  lemma AnswersIff(i: Item, q: string, asked: seq<string>)
    ensures Answers(i, q, asked) <==>
      if i.searchString.Some? && i.searchString.value in asked then q == i.searchString.value
      else i.inputPlaceId != "" && |q| == |i.inputPlaceId| + 9 && q[..9] == "place_id:" && q[9..] == i.inputPlaceId
  {
    if |q| >= 9 { assert q == q[..9] + q[9..]; }
    assert ("place_id:" + i.inputPlaceId)[..9] == "place_id:" && ("place_id:" + i.inputPlaceId)[9..] == i.inputPlaceId;
  }

  /** Of a review only its date, stars and text are kept; the other facts of the place are. */
  lemma NormalizedKeeps(i: Item)
    ensures Normalized(i).facts == i.facts && |Normalized(i).reviews| == |i.reviews|
    ensures forall k | 0 <= k < |i.reviews| ::
      var kept, raw := Normalized(i).reviews[k], i.reviews[k];
      kept.date == raw.date && kept.stars == raw.stars && kept.text == raw.text
  {
  }

  // ---- Workers at once --------------------------------------------------------------------------

  /** A check refused at the daily wall leaves the worker as it was. */
  lemma RefusedIsNothing(cap: int, w: World, i: nat, amount: nat)
    requires i < |w.workers| && w.workers[i].phase.Idle?
    ensures Next(cap, Next(cap, w, Check(i, amount)), Refuse(i)) == w
  {
    var w1 := Next(cap, w, Check(i, amount));
    assert w1.workers[i := w.workers[i]] == w.workers;
  }

  /** The overrun grows by what a run was charged beyond its reservation, and by nothing else. */
  lemma OverrunIs(cap: int, w: World, l: Label)
    ensures var w' := Next(cap, w, l);
      w'.overrun - w.overrun ==
        if l.Settle? && l.i < |w.workers| && w.workers[l.i].phase.Live? && l.charged > w.workers[l.i].phase.reserved
        then l.charged - w.workers[l.i].phase.reserved else 0
  {
  }
}
