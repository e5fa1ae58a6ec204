/**
 Check, call, record: several workers pay Places calls on one API key, and every Redis command
 of the check and of the record is its own step. The checks and the counters are CostGuard's.
 */
module PlacesCap {
  import opened Common
  import opened CostGuard

  /** USD per call, in micro-dollars. */
  const TEXT_SEARCH_PRO: int := 32_000
  const DETAILS_ENTERPRISE: int := 20_000
  const DETAILS_ENTERPRISE_ATMOSPHERE: int := 25_000
  const DETAILS_ESSENTIALS: int := 5_000

  predicate IsPrice(p: int) {
    p == TEXT_SEARCH_PRO || p == DETAILS_ENTERPRISE || p == DETAILS_ENTERPRISE_ATMOSPHERE || p == DETAILS_ESSENTIALS
  }

  /** Micro-dollars of the calls the client pays. */
  lemma PricesAre(p: int)
    ensures IsPrice(p) <==> p in {32_000, 20_000, 25_000, 5_000}
    ensures IsPrice(DEAREST) && (IsPrice(p) ==> p <= DEAREST)
  {
  }

  /** The dearest call. */
  const DEAREST: int := TEXT_SEARCH_PRO

  /** A worker pays one call at a time: total read, daily read, call, daily INCR, total INCR. */
  datatype Worker = Idle | TotalOk(price: int) | Calling(price: int) | DailyRecorded(price: int)

  datatype World = World(counters: Counters, now: int, workers: seq<Worker>)

  datatype Caps = Caps(keyId: string, daily: int, total: int)

  datatype Label =
    | ReadTotal(w: nat, price: int)    // first read of the check; raises at the credit wall
    | ReadDaily(w: nat)                // second read of the check; raises at the daily wall
    | CallFails(w: nat)                // the paid call raised: nothing is recorded
    | RecordDaily(w: nat) | RecordTotal(w: nat)
    | Wait(dt: nat)

  function Today(c: Caps, now: int): Key {
    DailyKey(now, PlacesLane(c.keyId))
  }

  predicate Is(s: World, w: nat) {
    w < |s.workers|
  }

  function Next(c: Caps, s: World, l: Label): World {
    match l
    case ReadTotal(w, price) =>
      if Is(s, w) && s.workers[w].Idle? && IsPrice(price) &&
         Get(s.counters, PlacesTotal(c.keyId)) + price <= c.total
      then s.(workers := s.workers[w := TotalOk(price)]) else s
    case ReadDaily(w) =>
      if Is(s, w) && s.workers[w].TotalOk? then
        var price := s.workers[w].price;
        s.(workers := s.workers[w :=
          if Get(s.counters, Today(c, s.now)) + price <= c.daily then Calling(price) else Idle])
      else s
    case CallFails(w) =>
      if Is(s, w) && s.workers[w].Calling? then s.(workers := s.workers[w := Idle]) else s
    case RecordDaily(w) =>
      if Is(s, w) && s.workers[w].Calling? then
        s.(counters := Recorded(s.counters, s.workers[w].price, PlacesLane(c.keyId), s.now),
           workers := s.workers[w := DailyRecorded(s.workers[w].price)])
      else s
    case RecordTotal(w) =>
      if Is(s, w) && s.workers[w].DailyRecorded? then
        s.(counters := Added(s.counters, PlacesTotal(c.keyId), s.workers[w].price),
           workers := s.workers[w := Idle])
      else s
    case Wait(dt) => s.(now := s.now + dt)
  }

  function Run(c: Caps, s: World, tr: seq<Label>): World {
    if tr == [] then s else Next(c, Run(c, s, tr[..|tr| - 1]), tr[|tr| - 1])
  }

  /** Both reads in one go are the guard's check; both records are its record. */
  lemma StepsAreTheGuards(c: Caps, s: World, w: nat, price: int)
    requires Is(s, w) && s.workers[w].Idle? && IsPrice(price)
    ensures var v := LaneVerdict(Get(s.counters, PlacesTotal(c.keyId)), Get(s.counters, Today(c, s.now)),
                                 price, Some(c.total), c.daily);
      var checked := Run(c, s, [ReadTotal(w, price), ReadDaily(w)]);
      && |checked.workers| == |s.workers|
      && (checked.workers[w] == Calling(price) <==> v == Pass)
      && (v != Pass ==> checked == s)
      && (v == Pass ==> Next(c, checked, CallFails(w)) == s)
      && (v == Pass ==> Run(c, checked, [RecordDaily(w), RecordTotal(w)]) ==
                          s.(counters := PlacesRecorded(s.counters, price, c.keyId, s.now)))
  {
    RunTwo(c, s, ReadTotal(w, price), ReadDaily(w));
    var checked := Run(c, s, [ReadTotal(w, price), ReadDaily(w)]);
    RunTwo(c, checked, RecordDaily(w), RecordTotal(w));
    assert s.workers[w := TotalOk(price)][w := Calling(price)][w := DailyRecorded(price)][w := Idle] == s.workers;
    assert s.workers[w := TotalOk(price)][w := Idle] == s.workers;
    assert s.workers[w := TotalOk(price)][w := Calling(price)][w := Idle] == s.workers;
  }

  lemma RunTwo(c: Caps, s: World, a: Label, b: Label)
    ensures Run(c, s, [a, b]) == Next(c, Next(c, s, a), b)
  {
    RunSnoc(c, s, [a], b);
    RunSnoc(c, s, [], a);
    assert [a] + [b] == [a, b] && [] + [a] == [a];
  }

  lemma {:induction false} RunAppend(c: Caps, s: World, xs: seq<Label>, ys: seq<Label>)
    ensures Run(c, s, xs + ys) == Run(c, Run(c, s, xs), ys)
    decreases |ys|
  {
    if ys == [] {
      assert xs + ys == xs;
    } else {
      assert (xs + ys)[..|xs + ys| - 1] == xs + ys[..|ys| - 1];
      RunAppend(c, s, xs, ys[..|ys| - 1]);
    }
  }

  lemma RunSnoc(c: Caps, s: World, tr: seq<Label>, l: Label)
    ensures Run(c, s, tr + [l]) == Next(c, Run(c, s, tr), l)
  {
    assert (tr + [l])[..|tr|] == tr;
  }

  // ---- Money checked but not recorded yet -------------------------------------------------

  /** Against the key's total: from the total read to the total INCR. */
  function OwedTotal(w: Worker): int {
    if w.Idle? then 0 else w.price
  }

  /** Against a daily key: from the daily read to the daily INCR. */
  function OwedDaily(w: Worker): int {
    if w.Calling? then w.price else 0
  }

  function Owed(ws: seq<Worker>, daily: bool): (xs: seq<int>)
    ensures |xs| == |ws|
  {
    seq(|ws|, i requires 0 <= i < |ws| => if daily then OwedDaily(ws[i]) else OwedTotal(ws[i]))
  }

  function Pending(ws: seq<Worker>, daily: bool): int {
    Sum(Owed(ws, daily))
  }

  lemma {:induction false} SumBounded(xs: seq<int>, most: int)
    requires most >= 0 && forall i | 0 <= i < |xs| :: 0 <= xs[i] <= most
    ensures 0 <= Sum(xs) <= |xs| * most
  {
    if xs != [] {
      SumBounded(xs[1..], most);
      assert |xs| * most == (|xs| - 1) * most + most;
    }
  }

  /** The others together owe at most one dearest call each. */
  lemma OthersOwe(ws: seq<Worker>, w: nat, w': Worker, daily: bool)
    requires w < |ws| && PricesOk(ws)
    ensures var mine := if daily then OwedDaily(ws[w]) else OwedTotal(ws[w]);
      var mine' := if daily then OwedDaily(w') else OwedTotal(w');
      && Pending(ws[w := w'], daily) == Pending(ws, daily) - mine + mine'
      && 0 <= Pending(ws, daily) - mine <= (|ws| - 1) * DEAREST
  {
    var xs := Owed(ws, daily);
    var mine' := if daily then OwedDaily(w') else OwedTotal(w');
    assert Owed(ws[w := w'], daily) == xs[w := mine'];
    SumUpdate(xs, w, mine');
    SumUpdate(xs, w, 0);
    var rest := xs[..w] + xs[w + 1..];
    assert xs[w := 0] == xs[..w] + [0] + xs[w + 1..];
    SumAppend(xs[..w] + [0], xs[w + 1..]);
    SumAppend(xs[..w], [0]);
    SumAppend(xs[..w], xs[w + 1..]);
    assert Sum([0]) == 0 + Sum([]);
    SumBounded(rest, DEAREST);
  }

  predicate PricesOk(ws: seq<Worker>) {
    forall i | 0 <= i < |ws| :: !ws[i].Idle? ==> IsPrice(ws[i].price)
  }

  /** The bound: the cap plus one dearest call for every worker but one. */
  function Bound(cap: int, workers: int): int {
    cap + (workers - 1) * DEAREST
  }

  /** Recorded plus owed stays within the bound, on the total and on every daily key; the keys
      of days to come are still empty; and no call under way is dearer than the daily cap. */
  ghost predicate Capped(c: Caps, s: World) {
    && PricesOk(s.workers) && |s.workers| > 0
    && Get(s.counters, PlacesTotal(c.keyId)) + Pending(s.workers, false) <= Bound(c.total, |s.workers|)
    && (forall day :: Get(s.counters, Daily(PlacesLane(c.keyId), day)) >= 0)
    && (forall day | day <= DayOf(s.now) ::
          Get(s.counters, Daily(PlacesLane(c.keyId), day)) <= Bound(c.daily, |s.workers|))
    && Get(s.counters, Today(c, s.now)) + Pending(s.workers, true) <= Bound(c.daily, |s.workers|)
    && (forall day | day > DayOf(s.now) :: Get(s.counters, Daily(PlacesLane(c.keyId), day)) == 0)
    && (forall i | 0 <= i < |s.workers| && s.workers[i].Calling? :: s.workers[i].price <= c.daily)
  }

  lemma ReadsKeepCap(c: Caps, s: World, l: Label)
    requires Capped(c, s) && (l.ReadTotal? || l.ReadDaily? || l.CallFails?)
    ensures Capped(c, Next(c, s, l))
  {
    var w, s' := l.w, Next(c, s, l);
    if s' != s {
      OthersOwe(s.workers, w, s'.workers[w], true);
      OthersOwe(s.workers, w, s'.workers[w], false);
      assert s'.workers == s.workers[w := s'.workers[w]];
    }
  }

  lemma RecordsKeepCap(c: Caps, s: World, l: Label)
    requires Capped(c, s) && (l.RecordDaily? || l.RecordTotal?)
    ensures Capped(c, Next(c, s, l))
  {
    var w, s' := l.w, Next(c, s, l);
    if s' != s {
      OthersOwe(s.workers, w, s'.workers[w], true);
      OthersOwe(s.workers, w, s'.workers[w], false);
      assert s'.workers == s.workers[w := s'.workers[w]];
    }
  }

  /** Calls checked before midnight and recorded after: on the new, empty key they are all still
      owed, one of them within the cap and the others one dearest call each. */
  lemma OwedAtMidnight(c: Caps, s: World)
    requires Capped(c, s) && c.daily >= 0
    ensures Pending(s.workers, true) <= Bound(c.daily, |s.workers|)
  {
    assert (|s.workers| - 1) * DEAREST >= 0;
    if w :| 0 <= w < |s.workers| && s.workers[w].Calling? {
      OthersOwe(s.workers, w, Idle, true);
    } else {
      forall i | 0 <= i < |s.workers| ensures Owed(s.workers, true)[i] == 0 {}
      SumBounded(Owed(s.workers, true), 0);
    }
  }

  lemma WaitKeepsCap(c: Caps, s: World, dt: nat)
    requires Capped(c, s) && c.daily >= 0
    ensures Capped(c, Next(c, s, Wait(dt)))
  {
    OwedAtMidnight(c, s);
    assert DayOf(s.now) <= DayOf(s.now + dt);
    assert 0 <= (|s.workers| - 1) * DEAREST;
  }

  /** With W workers, whatever their commands' order and whatever the clock does, the spend
      recorded plus the calls checked but not recorded never exceeds the cap plus (W - 1) of the
      dearest call, on the key's total and on every daily key. */
  lemma {:induction false} SpendStaysWithinTheBound(c: Caps, now: int, workers: nat, tr: seq<Label>)
    requires c.daily >= 0 && c.total >= 0 && workers > 0
    ensures Capped(c, Run(c, World(map[], now, seq(workers, _ => Idle)), tr))
    ensures |Run(c, World(map[], now, seq(workers, _ => Idle)), tr).workers| == workers
    ensures var s := Run(c, World(map[], now, seq(workers, _ => Idle)), tr);
      && Get(s.counters, PlacesTotal(c.keyId)) + Pending(s.workers, false) <= c.total + (workers - 1) * DEAREST
      && Get(s.counters, Today(c, s.now)) + Pending(s.workers, true) <= c.daily + (workers - 1) * DEAREST
    decreases |tr|
  {
    var s0 := World(map[], now, seq(workers, _ => Idle));
    if tr == [] {
      SumBounded(Owed(s0.workers, true), 0);
      SumBounded(Owed(s0.workers, false), 0);
      assert (workers - 1) * DEAREST >= 0;
    } else {
      var init, l := tr[..|tr| - 1], tr[|tr| - 1];
      SpendStaysWithinTheBound(c, now, workers, init);
      var s := Run(c, s0, init);
      match l
      case Wait(dt) => WaitKeepsCap(c, s, dt);
      case RecordDaily(_) => RecordsKeepCap(c, s, l);
      case RecordTotal(_) => RecordsKeepCap(c, s, l);
      case _ => ReadsKeepCap(c, s, l);
    }
  }

  // ---- The bound is tight -----------------------------------------------------------------

  /** The first n workers check, all before any records; then they record. */
  function Checks(n: nat): seq<Label> {
    if n == 0 then [] else Checks(n - 1) + [ReadTotal(n - 1, DEAREST), ReadDaily(n - 1)]
  }

  function Records(n: nat): seq<Label> {
    if n == 0 then [] else Records(n - 1) + [RecordDaily(n - 1), RecordTotal(n - 1)]
  }

  /** The first worker makes n calls, one after the other. */
  function Calls(n: nat): seq<Label> {
    if n == 0 then [] else Calls(n - 1) + [ReadTotal(0, DEAREST), ReadDaily(0)] + [RecordDaily(0), RecordTotal(0)]
  }

  /** Workers of which the first n are as `first` and the others as `rest`. */
  function Crew(workers: nat, n: nat, first: Worker, rest: Worker): seq<Worker> {
    seq(workers, i => if i < n then first else rest)
  }

  function Total(c: Caps, s: World): int {
    Get(s.counters, PlacesTotal(c.keyId))
  }

  function Day(c: Caps, s: World): int {
    Get(s.counters, Today(c, s.now))
  }

  lemma {:induction false} ChecksPass(c: Caps, s: World, n: nat)
    requires n <= |s.workers| && s.workers == Crew(|s.workers|, 0, Idle, Idle)
    requires Total(c, s) + DEAREST <= c.total && Day(c, s) + DEAREST <= c.daily
    ensures Run(c, s, Checks(n)) == s.(workers := Crew(|s.workers|, n, Calling(DEAREST), Idle))
  {
    if n > 0 {
      var l0, l1 := ReadTotal(n - 1, DEAREST), ReadDaily(n - 1);
      ChecksPass(c, s, n - 1);
      RunAppend(c, s, Checks(n - 1), [l0, l1]);
      var before := Crew(|s.workers|, n - 1, Calling(DEAREST), Idle);
      RunTwo(c, s.(workers := before), l0, l1);
      assert before[n - 1 := TotalOk(DEAREST)][n - 1 := Calling(DEAREST)] ==
             Crew(|s.workers|, n, Calling(DEAREST), Idle);
    }
  }

  lemma {:induction false} RecordsAdd(c: Caps, s: World, n: nat)
    requires n <= |s.workers| && s.workers == Crew(|s.workers|, 0, Idle, Calling(DEAREST)) && Day(c, s) >= 0
    ensures var s' := Run(c, s, Records(n));
      && s'.now == s.now && s'.workers == Crew(|s.workers|, n, Idle, Calling(DEAREST))
      && Total(c, s') == Total(c, s) + n * DEAREST && Day(c, s') == Day(c, s) + n * DEAREST
  {
    if n > 0 {
      RecordsFurther(c, s, n);
      RecordsAdd(c, s, n - 1);
      var s1 := Run(c, s, Records(n - 1));
      CrewMoves(|s.workers|, n, Idle, Calling(DEAREST));
      hide Run, Next, Total, Day, Crew, Records;
      OneRecords(c, s1, n - 1);
    }
  }

  lemma RecordsFurther(c: Caps, s: World, n: nat)
    requires n > 0
    ensures Run(c, s, Records(n)) ==
      Next(c, Next(c, Run(c, s, Records(n - 1)), RecordDaily(n - 1)), RecordTotal(n - 1))
  {
    RunAppend(c, s, Records(n - 1), [RecordDaily(n - 1), RecordTotal(n - 1)]);
    RunTwo(c, Run(c, s, Records(n - 1)), RecordDaily(n - 1), RecordTotal(n - 1));
    hide Run, Next;
  }

  lemma CrewMoves(workers: nat, n: nat, first: Worker, rest: Worker)
    requires 0 < n <= workers
    ensures Crew(workers, n - 1, first, rest)[n - 1] == rest && |Crew(workers, n - 1, first, rest)| == workers
    ensures Crew(workers, n - 1, first, rest)[n - 1 := first] == Crew(workers, n, first, rest)
  {
  }

  lemma OneRecords(c: Caps, s: World, w: nat)
    requires Is(s, w) && s.workers[w] == Calling(DEAREST) && Day(c, s) >= 0
    ensures var s' := Next(c, Next(c, s, RecordDaily(w)), RecordTotal(w));
      && s'.now == s.now && s'.workers == s.workers[w := Idle]
      && Total(c, s') == Total(c, s) + DEAREST && Day(c, s') == Day(c, s) + DEAREST
  {
    assert s.workers[w := DailyRecorded(DEAREST)][w := Idle] == s.workers[w := Idle];
  }

  lemma {:induction false} CallsAdd(c: Caps, s: World, n: nat)
    requires |s.workers| > 0 && s.workers[0].Idle? && Day(c, s) >= 0
    requires Total(c, s) + n * DEAREST <= c.total && Day(c, s) + n * DEAREST <= c.daily
    ensures var s' := Run(c, s, Calls(n));
      && s'.now == s.now && s'.workers == s.workers
      && Total(c, s') == Total(c, s) + n * DEAREST && Day(c, s') == Day(c, s) + n * DEAREST
  {
    if n > 0 {
      CallsAdd(c, s, n - 1);
      var s1 := Run(c, s, Calls(n - 1));
      StepsAreTheGuards(c, s1, 0, DEAREST);
      RunAppend(c, s, Calls(n - 1), [ReadTotal(0, DEAREST), ReadDaily(0)]);
      RunAppend(c, s, Calls(n - 1) + [ReadTotal(0, DEAREST), ReadDaily(0)], [RecordDaily(0), RecordTotal(0)]);
      hide Run, Calls;
    }
  }

  /** From any idle state that has room for one dearest call on each counter, W workers that all
      check before any records add W of it. */
  lemma AllCheckBeforeAnyRecords(c: Caps, s: World)
    requires s.workers == Crew(|s.workers|, 0, Idle, Idle) && Day(c, s) >= 0
    requires Total(c, s) + DEAREST <= c.total && Day(c, s) + DEAREST <= c.daily
    ensures var s' := Run(c, s, Checks(|s.workers|) + Records(|s.workers|));
      && s'.now == s.now
      && Total(c, s') == Total(c, s) + |s.workers| * DEAREST && Day(c, s') == Day(c, s) + |s.workers| * DEAREST
  {
    var n := |s.workers|;
    ChecksPass(c, s, n);
    RunAppend(c, s, Checks(n), Records(n));
    var s1 := Run(c, s, Checks(n));
    assert s1.workers == Crew(n, 0, Idle, Calling(DEAREST));
    RecordsAdd(c, s1, n);
  }

  /** For every number of workers, and every cap that is a number of dearest calls, some run from
      empty counters records exactly the bound, on the total and on the day's key. */
  lemma TheBoundIsReached(c: Caps, now: int, workers: nat, calls: nat)
    requires workers > 0 && calls > 0 && c.total == c.daily == calls * DEAREST
    ensures var tr := Calls(calls - 1) + (Checks(workers) + Records(workers));
      var s := Run(c, World(map[], now, seq(workers, _ => Idle)), tr);
      Total(c, s) == Day(c, s) == Bound(calls * DEAREST, workers)
  {
    var s0 := World(map[], now, seq(workers, _ => Idle));
    CallsAdd(c, s0, calls - 1);
    var s1 := Run(c, s0, Calls(calls - 1));
    assert s1.workers == Crew(workers, 0, Idle, Idle);
    AllCheckBeforeAnyRecords(c, s1);
    RunAppend(c, s0, Calls(calls - 1), Checks(workers) + Records(workers));
    hide Run, Calls, Checks, Records;
  }
}
