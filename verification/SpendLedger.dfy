/**
 Reservations settled up to days later: what every daily key of a lane holds at every moment,
 and the zero floor, sequentially and under interleaving.
 */
module SpendLedger {
  import opened Common
  import opened CostGuard

  /** One reserved unit: when and for how much it was booked; when and at what bill it settled. */
  datatype Unit = Unit(at: int, amount: int, settled: Option<Bill>)
  datatype Bill = Bill(at: int, actual: int)
  datatype Spend = Spend(at: int, usd: int)

  /** One submit books `n` units in one record_spend; each is settled by a call of its own. */
  datatype Event =
    | Direct(usd: int)
    | Reserve(n: nat, each: int)
    | Settle(i: nat, actual: int)
    | Wait(dt: nat)

  datatype Book = Book(now: int, counters: Counters, direct: seq<Spend>, units: seq<Unit>)

  const OPEN: Book := Book(0, map[], [], [])

  predicate Allowed(b: Book, e: Event) {
    match e
    case Reserve(n, each) => each >= 0
    case Settle(i, actual) => i < |b.units| && b.units[i].settled.None? && actual >= 0
    case _ => true
  }

  /** The guard's own functions do the bookkeeping on the counters. */
  function Step(b: Book, e: Event): Book {
    if !Allowed(b, e) then b else
    match e
    case Direct(usd) =>
      b.(counters := Recorded(b.counters, usd, SHARED, b.now), direct := b.direct + [Spend(b.now, Max(0, usd))])
    case Reserve(n, each) =>
      b.(counters := Recorded(b.counters, n * each, SHARED, b.now),
         units := b.units + seq(n, _ => Unit(b.now, each, None)))
    case Settle(i, actual) =>
      var u := b.units[i];
      b.(counters := Reconciled(b.counters, u.amount, actual, Some(Aware(u.at, 0)), b.now),
         units := b.units[i := u.(settled := Some(Bill(b.now, actual)))])
    case Wait(dt) => b.(now := b.now + dt)
  }

  /** Any spend goes through, any reservation of nothing or more, and one settlement a unit; time passes
      and moves nothing. */
  lemma EventsAre(b: Book, e: Event)
    ensures Step(b, e) == b || Allowed(b, e)
    ensures e.Direct? ==> |Step(b, e).direct| == |b.direct| + 1 && Step(b, e).units == b.units
    ensures e.Reserve? && e.each >= 0 ==>
      |Step(b, e).units| == |b.units| + e.n && forall i | |b.units| <= i < |b.units| + e.n ::
        Step(b, e).units[i] == Unit(b.now, e.each, None)
    ensures e.Settle? && e.i < |b.units| && b.units[e.i].settled.None? && e.actual >= 0 ==>
      Step(b, e).units == b.units[e.i := Unit(b.units[e.i].at, b.units[e.i].amount, Some(Bill(b.now, e.actual)))]
    ensures e.Wait? ==> Step(b, e) == b.(now := b.now + e.dt)
    ensures !e.Wait? ==> Step(b, e).now == b.now
  {
  }

  /** What one unit adds to the key of `day`: its actual if it settled the day it was booked,
      its reservation if it did not, and on a later day only what it overran. */
  function Share(u: Unit, day: int): int {
    if DayOf(u.at) == day then
      if u.settled.Some? && DayOf(u.settled.value.at) == day then u.settled.value.actual else u.amount
    else if u.settled.Some? && DayOf(u.settled.value.at) == day then
      Max(0, u.settled.value.actual - u.amount)
    else 0
  }

  function DirectOn(ds: seq<Spend>, day: int): int {
    Sum(seq(|ds|, i requires 0 <= i < |ds| => if DayOf(ds[i].at) == day then ds[i].usd else 0))
  }

  function SharesOn(us: seq<Unit>, day: int): int {
    Sum(Shares(us, day))
  }

  function Shares(us: seq<Unit>, day: int): (s: seq<int>)
    ensures |s| == |us|
  {
    seq(|us|, i requires 0 <= i < |us| => Share(us[i], day))
  }

  ghost predicate Balanced(b: Book) {
    && (forall i | 0 <= i < |b.direct| :: b.direct[i].usd >= 0 && DayOf(b.direct[i].at) <= DayOf(b.now))
    && (forall i | 0 <= i < |b.units| :: b.units[i].amount >= 0 && DayOf(b.units[i].at) <= DayOf(b.now))
    && (forall i | 0 <= i < |b.units| && b.units[i].settled.Some? ::
          b.units[i].settled.value.actual >= 0 && DayOf(b.units[i].settled.value.at) <= DayOf(b.now))
    && (forall day :: Get(b.counters, Daily(SHARED, day)) == DirectOn(b.direct, day) + SharesOn(b.units, day))
  }

  lemma SharesNonNegative(us: seq<Unit>, day: int)
    requires forall i | 0 <= i < |us| :: us[i].amount >= 0 && (us[i].settled.Some? ==> us[i].settled.value.actual >= 0)
    ensures SharesOn(us, day) >= 0
    ensures forall i | 0 <= i < |us| :: Share(us[i], day) <= SharesOn(us, day)
  {
    SumNonNegative(Shares(us, day));
    forall i | 0 <= i < |us| ensures Share(us[i], day) <= SharesOn(us, day) {
      assert Shares(us, day)[i] == Share(us[i], day);
    }
  }

  lemma DirectNonNegative(ds: seq<Spend>, day: int)
    requires forall i | 0 <= i < |ds| :: ds[i].usd >= 0
    ensures DirectOn(ds, day) >= 0
  {
    SumNonNegative(seq(|ds|, i requires 0 <= i < |ds| => if DayOf(ds[i].at) == day then ds[i].usd else 0));
  }

  lemma DirectAdds(ds: seq<Spend>, d: Spend, day: int)
    ensures DirectOn(ds + [d], day) == DirectOn(ds, day) + if DayOf(d.at) == day then d.usd else 0
  {
    var term := (x: Spend) => if DayOf(x.at) == day then x.usd else 0;
    var before := seq(|ds|, i requires 0 <= i < |ds| => if DayOf(ds[i].at) == day then ds[i].usd else 0);
    var all := ds + [d];
    var after := seq(|all|, i requires 0 <= i < |all| => if DayOf(all[i].at) == day then all[i].usd else 0);
    assert after == before + [term(d)];
    SumAppend(before, [term(d)]);
    assert Sum([term(d)]) == term(d) + Sum([]);
  }

  lemma {:induction false} SumConst(n: nat, v: int)
    ensures Sum(seq(n, _ => v)) == n * v
  {
    if n > 0 {
      assert seq(n, _ => v)[1..] == seq(n - 1, _ => v);
      SumConst(n - 1, v);
    }
  }

  lemma ReserveAdds(us: seq<Unit>, n: nat, u: Unit, day: int)
    ensures SharesOn(us + seq(n, _ => u), day) == SharesOn(us, day) + n * Share(u, day)
  {
    var v := Share(u, day);
    assert Shares(us + seq(n, _ => u), day) == Shares(us, day) + seq(n, _ => v);
    SumAppend(Shares(us, day), seq(n, _ => v));
    SumConst(n, v);
  }

  lemma SettleMoves(us: seq<Unit>, i: nat, u: Unit, day: int)
    requires i < |us|
    ensures SharesOn(us[i := u], day) == SharesOn(us, day) - Share(us[i], day) + Share(u, day)
  {
    assert Shares(us[i := u], day) == Shares(us, day)[i := Share(u, day)];
    SumUpdate(Shares(us, day), i, Share(u, day));
  }

  lemma DirectKeepsBalance(b: Book, usd: int)
    requires Balanced(b)
    ensures Balanced(Step(b, Direct(usd)))
  {
    var b' := Step(b, Direct(usd));
    forall day
      ensures Get(b'.counters, Daily(SHARED, day)) == DirectOn(b'.direct, day) + SharesOn(b'.units, day)
    {
      DirectNonNegative(b.direct, day);
      SharesNonNegative(b.units, day);
      DirectAdds(b.direct, Spend(b.now, Max(0, usd)), day);
    }
  }

  lemma ReserveKeepsBalance(b: Book, n: nat, each: int)
    requires Balanced(b) && each >= 0
    ensures Balanced(Step(b, Reserve(n, each)))
  {
    var b' := Step(b, Reserve(n, each));
    var u := Unit(b.now, each, None);
    assert n * each >= 0;
    forall day
      ensures Get(b'.counters, Daily(SHARED, day)) == DirectOn(b'.direct, day) + SharesOn(b'.units, day)
    {
      DirectNonNegative(b.direct, day);
      SharesNonNegative(b.units, day);
      ReserveAdds(b.units, n, u, day);
      assert b'.units == b.units + seq(n, _ => u);
    }
  }

  /** A settlement never reaches the floor: what it takes off today's key is its own. */
  lemma SettleNeverFloors(b: Book, i: nat, actual: int)
    requires Balanced(b) && Allowed(b, Settle(i, actual))
    ensures var u := b.units[i];
      Get(b.counters, DailyKey(b.now, SHARED)) + DeltaToday(u.amount, actual, Some(Aware(u.at, 0)), b.now)
        >= DirectOn(b.direct, DayOf(b.now)) >= 0
  {
    var day, u := DayOf(b.now), b.units[i];
    DirectNonNegative(b.direct, day);
    SharesNonNegative(b.units, day);
    assert Share(u, day) <= SharesOn(b.units, day);
  }

  lemma SettleKeepsBalance(b: Book, i: nat, actual: int)
    requires Balanced(b) && Allowed(b, Settle(i, actual))
    ensures Balanced(Step(b, Settle(i, actual)))
  {
    var b' := Step(b, Settle(i, actual));
    var u := b.units[i];
    SettleNeverFloors(b, i, actual);
    forall day
      ensures Get(b'.counters, Daily(SHARED, day)) == DirectOn(b'.direct, day) + SharesOn(b'.units, day)
    {
      SettleMoves(b.units, i, u.(settled := Some(Bill(b.now, actual))), day);
    }
  }

  lemma StepKeepsBalance(b: Book, e: Event)
    requires Balanced(b) && Allowed(b, e)
    ensures Balanced(Step(b, e))
  {
    match e
    case Direct(usd) => DirectKeepsBalance(b, usd);
    case Reserve(n, each) => ReserveKeepsBalance(b, n, each);
    case Settle(i, actual) => SettleKeepsBalance(b, i, actual);
    case Wait(dt) =>
      assert DayOf(b.now) <= DayOf(b.now + dt);
  }

  /** Any trace; a settlement of an unknown or already settled unit is not one of the callers'
      and changes nothing. */
  function Run(tr: seq<Event>): Book {
    if tr == [] then OPEN else Step(Run(tr[..|tr| - 1]), tr[|tr| - 1])
  }

  /** Every daily key, at every moment of every trace, holds exactly the direct spend of its
      day, plus each unit's share: the actual of a same-day settlement, the reservation of an
      outstanding one, the overrun of an older one. */
  lemma {:induction false} EveryKeyBalances(tr: seq<Event>)
    ensures Balanced(Run(tr))
  {
    if tr == [] {
      assert forall day :: DirectOn([], day) + SharesOn([], day) == 0;
    } else {
      EveryKeyBalances(tr[..|tr| - 1]);
      var b, e := Run(tr[..|tr| - 1]), tr[|tr| - 1];
      if Allowed(b, e) { StepKeepsBalance(b, e); }
    }
  }

  /** So no refund erases another lane's spend: today's key never falls below today's direct
      spend, and the next settlement cannot make it. */
  lemma RefundsEraseNothing(tr: seq<Event>)
    ensures var b := Run(tr); Get(b.counters, DailyKey(b.now, SHARED)) >= DirectOn(b.direct, DayOf(b.now))
    ensures forall i: nat, actual | Allowed(Run(tr), Settle(i, actual)) :: var b := Run(tr);
      Get(b.counters, DailyKey(b.now, SHARED)) +
        DeltaToday(b.units[i].amount, actual, Some(Aware(b.units[i].at, 0)), b.now) >= DirectOn(b.direct, DayOf(b.now))
  {
    EveryKeyBalances(tr);
    var b := Run(tr);
    SharesNonNegative(b.units, DayOf(b.now));
    forall i: nat, actual | Allowed(b, Settle(i, actual)) { SettleNeverFloors(b, i, actual); }
  }

  /** Without reserved_at a refund booked yesterday does erase today's spend of the others. */
  lemma ForgettingTheDayErasesSpend(c: Counters, spent: int, reserved: int, now: int)
    requires Get(c, DailyKey(now, SHARED)) == 0 && 0 < spent <= reserved
    ensures Get(Reconciled(Recorded(c, spent, SHARED, now), reserved, 0, None, now), DailyKey(now, SHARED)) == 0
    ensures forall at | DayOf(Utc(at)) < DayOf(now) ::
      Get(Reconciled(Recorded(c, spent, SHARED, now), reserved, 0, Some(at), now), DailyKey(now, SHARED)) == spent
  {
  }

  // ---- The zero floor ---------------------------------------------------------------------

  /** One floored counter after a sequence of signed deltas. */
  function Floored(ds: seq<int>): int {
    if ds == [] then 0 else Max(0, Floored(ds[..|ds| - 1]) + ds[|ds| - 1])
  }

  /** The guard's counter of one key, delta after delta. */
  function ApplyAll(c: Counters, k: Key, ds: seq<int>): Counters {
    if ds == [] then c else Applied(ApplyAll(c, k, ds[..|ds| - 1]), k, ds[|ds| - 1])
  }

  lemma {:induction false} FreshKeyIsFloored(c: Counters, k: Key, ds: seq<int>)
    requires k !in c
    ensures Get(ApplyAll(c, k, ds), k) == Floored(ds)
  {
    if ds != [] {
      FreshKeyIsFloored(c, k, ds[..|ds| - 1]);
    }
  }

  lemma SumSnoc(ds: seq<int>)
    requires ds != []
    ensures Sum(ds) == Sum(ds[..|ds| - 1]) + ds[|ds| - 1]
  {
    var init, last := ds[..|ds| - 1], ds[|ds| - 1];
    assert ds == init + [last];
    SumAppend(init, [last]);
    assert Sum([last]) == last + Sum([]);
  }

  /** The floored counter is the running sum measured from its lowest point: at least the sum of
      the deltas since any moment, and equal to it since some moment. */
  lemma {:induction false} FlooredIsSumFromTheLowestPoint(ds: seq<int>) returns (low: nat)
    ensures low <= |ds| && Floored(ds) == Sum(ds) - Sum(ds[..low])
    ensures forall k | 0 <= k <= |ds| :: Floored(ds) >= Sum(ds) - Sum(ds[..k])
  {
    if ds == [] {
      low := 0;
    } else {
      var init := ds[..|ds| - 1];
      low := FlooredIsSumFromTheLowestPoint(init);
      SumSnoc(ds);
      forall k | 0 <= k <= |init| ensures ds[..k] == init[..k] {}
      assert ds[..|ds|] == ds;
      if Floored(init) + ds[|ds| - 1] < 0 {
        low := |ds|;
      }
      forall k | 0 <= k <= |ds| ensures Floored(ds) >= Sum(ds) - Sum(ds[..k]) {
        if k < |ds| { assert ds[..k] == init[..k]; }
      }
    }
  }

  /** Many writers of one key: each INCR and each correction is a command of its own. A writer
      that saw the counter below zero owes the correction `owed`. */
  datatype Writers = Writers(counter: int, owed: seq<int>, applied: int)

  datatype Command = IncrBy(w: nat, delta: int) | Correct(w: nat)

  function Execute(s: Writers, c: Command): Writers {
    match c
    case IncrBy(w, delta) =>
      if w < |s.owed| && s.owed[w] == 0 then
        var total := s.counter + delta;
        Writers(total, if total < 0 then s.owed[w := -total] else s.owed, s.applied + delta)
      else s
    case Correct(w) =>
      if w < |s.owed| then Writers(s.counter + s.owed[w], s.owed[w := 0], s.applied) else s
  }

  /** A writer nobody interrupts leaves the counter as the guard's floored write does. */
  lemma WriteAlone(s: Writers, w: nat, delta: int, c: Counters, k: Key)
    requires w < |s.owed| && s.owed[w] == 0 && Get(c, k) == s.counter
    ensures var s' := Execute(Execute(s, IncrBy(w, delta)), Correct(w));
      s'.counter == Get(Applied(c, k, delta), k) && s'.owed == s.owed
  {
    var total := s.counter + delta;
    assert total < 0 ==> s.owed[w := -total][w := 0] == s.owed;
    assert s.owed[w := 0] == s.owed;
  }

  function ExecuteAll(s: Writers, cs: seq<Command>): Writers {
    if cs == [] then s else Execute(ExecuteAll(s, cs[..|cs| - 1]), cs[|cs| - 1])
  }

  /** Whatever is still owed covers what the counter is short of zero, and corrections only add. */
  predicate Covered(s: Writers) {
    && (forall i | 0 <= i < |s.owed| :: s.owed[i] >= 0)
    && s.counter + Sum(s.owed) >= 0
    && s.counter >= s.applied
  }

  lemma CommandKeepsCover(s: Writers, c: Command)
    requires Covered(s)
    ensures Covered(Execute(s, c)) && |Execute(s, c).owed| == |s.owed|
  {
    if c.w < |s.owed| {
      if c.IncrBy? {
        SumUpdate(s.owed, c.w, -(s.counter + c.delta));
        SumNonNegative(s.owed);
      } else {
        SumUpdate(s.owed, c.w, 0);
      }
    }
  }

  /** At rest, after any interleaving of any writers, the counter is not below zero and no
      delta was lost. */
  lemma {:induction false} FloorIsSafeUnderInterleaving(n: nat, start: int, cs: seq<Command>)
    requires start >= 0
    ensures var s := ExecuteAll(Writers(start, seq(n, _ => 0), start), cs);
      Covered(s) && |s.owed| == n && (Sum(s.owed) == 0 ==> s.counter >= Max(0, s.applied))
    decreases |cs|
  {
    if cs == [] {
      SumConst(n, 0);
    } else {
      FloorIsSafeUnderInterleaving(n, start, cs[..|cs| - 1]);
      CommandKeepsCover(ExecuteAll(Writers(start, seq(n, _ => 0), start), cs[..|cs| - 1]), cs[|cs| - 1]);
    }
  }

  /** The counter as it will stand once every correction owed has landed. */
  function Level(s: Writers): int {
    s.counter + Sum(s.owed)
  }

  /** Corrections move no level. An INCR moves it as the floored write does exactly when it does
      not land below zero while a correction is owed; else it leaves more. */
  lemma LevelOfOneCommand(s: Writers, c: Command)
    requires Covered(s)
    ensures c.Correct? ==> Level(Execute(s, c)) == Level(s)
    ensures c.IncrBy? && Issues(s, c) ==>
      && Level(Execute(s, c)) >= Max(0, Level(s) + c.delta)
      && (Level(Execute(s, c)) == Max(0, Level(s) + c.delta) <==> s.counter + c.delta >= 0 || Sum(s.owed) == 0)
    ensures c.IncrBy? && !Issues(s, c) ==> Execute(s, c) == s
  {
    SumNonNegative(s.owed);
    if c.w < |s.owed| {
      if c.IncrBy? {
        SumUpdate(s.owed, c.w, -(s.counter + c.delta));
      } else {
        SumUpdate(s.owed, c.w, 0);
      }
    }
  }

  /** A writer that owes a correction issues that before its next INCR. */
  predicate Issues(s: Writers, c: Command) {
    c.IncrBy? && c.w < |s.owed| && s.owed[c.w] == 0
  }

  /** The same deltas one at a time, in the order their INCRs landed. */
  function InOrder(s: Writers, start: int, cs: seq<Command>): int {
    if cs == [] then start
    else
      var init, c := cs[..|cs| - 1], cs[|cs| - 1];
      if Issues(ExecuteAll(s, init), c) then Max(0, InOrder(s, start, init) + c.delta) else InOrder(s, start, init)
  }

  /** No INCR landed below zero while a correction was owed. */
  predicate NoDoubleFloor(s: Writers, cs: seq<Command>) {
    cs == [] ||
    var init, c := cs[..|cs| - 1], cs[|cs| - 1];
    var u := ExecuteAll(s, init);
    NoDoubleFloor(s, init) && (Issues(u, c) ==> u.counter + c.delta >= 0 || Sum(u.owed) == 0)
  }

  /** At every moment of the run. */
  predicate LevelIsInOrder(s: Writers, start: int, cs: seq<Command>) {
    && (cs == [] || LevelIsInOrder(s, start, cs[..|cs| - 1]))
    && Level(ExecuteAll(s, cs)) == InOrder(s, start, cs)
  }

  /** The interleaved floor against the sequential one: never below it; and equal to it at every
      moment of the run if and only if no INCR lands below zero while a correction is owed. */
  lemma {:induction false} FloorIsExactIffNoDoubleFloor(n: nat, start: int, cs: seq<Command>)
    requires start >= 0
    ensures var s0 := Writers(start, seq(n, _ => 0), start);
      && Level(ExecuteAll(s0, cs)) >= InOrder(s0, start, cs) >= 0
      && (LevelIsInOrder(s0, start, cs) <==> NoDoubleFloor(s0, cs))
    decreases |cs|
  {
    var s0 := Writers(start, seq(n, _ => 0), start);
    if cs == [] {
      SumConst(n, 0);
    } else {
      var init, c := cs[..|cs| - 1], cs[|cs| - 1];
      FloorIsExactIffNoDoubleFloor(n, start, init);
      FloorIsSafeUnderInterleaving(n, start, init);
      LevelOfOneCommand(ExecuteAll(s0, init), c);
    }
  }

  /** At rest, then, the counter is at least what the deltas leave in sequence, and exactly that
      when none was floored twice. */
  lemma AtRestAtLeastInOrder(n: nat, start: int, cs: seq<Command>)
    requires start >= 0
    requires var s := ExecuteAll(Writers(start, seq(n, _ => 0), start), cs); Sum(s.owed) == 0
    ensures var s0 := Writers(start, seq(n, _ => 0), start);
      && ExecuteAll(s0, cs).counter >= InOrder(s0, start, cs)
      && (NoDoubleFloor(s0, cs) ==> ExecuteAll(s0, cs).counter == InOrder(s0, start, cs))
  {
    FloorIsExactIffNoDoubleFloor(n, start, cs);
  }

  /** A double floor on a run: two refunds that both saw the counter below zero correct it twice,
      and leave it above what the same deltas leave one at a time. */
  lemma FloorMayOvershoot()
    ensures var cs := [IncrBy(0, -5), IncrBy(1, -1), Correct(0), Correct(1)];
      var s := ExecuteAll(Writers(0, [0, 0], 0), cs);
      s.owed == [0, 0] && s.counter == 5 && Floored([-5, -1]) == 0
  {
    var s0 := Writers(0, [0, 0], 0);
    var cs := [IncrBy(0, -5), IncrBy(1, -1), Correct(0), Correct(1)];
    assert cs[..1][..0] == [] && cs[..2][..1] == cs[..1] && cs[..3][..2] == cs[..2];
    assert ExecuteAll(s0, cs[..1]) == Execute(ExecuteAll(s0, cs[..1][..0]), cs[0]);
    assert [0, 0][0 := 5] == [5, 0] && [5, 0][1 := 6] == [5, 6] && [5, 6][0 := 0] == [0, 6] && [0, 6][1 := 0] == [0, 0];
    var s1 := ExecuteAll(s0, cs[..1]);
    assert s1 == Writers(-5, [5, 0], -5);
    var s2 := ExecuteAll(s0, cs[..2]);
    assert s2 == Writers(-6, [5, 6], -6);
    var s3 := ExecuteAll(s0, cs[..3]);
    assert s3 == Writers(-1, [0, 6], -6);
    assert [-5, -1][..1] == [-5] && [-5][..0] == [];
  }
}
