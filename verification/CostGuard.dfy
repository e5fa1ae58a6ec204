/**
 The spend counters: one key a lane and UTC day, running totals, the zero floor and the checks
 that raise before a paid call. Money is in micro-dollars, time in microseconds.
 */
module CostGuard {
  import opened Common

  const SECOND: int := 1_000_000
  const DAY: int := 86_400 * SECOND

  /** A datetime as it reaches the guard: aware (a local time and its offset) or naive. */
  datatype Instant = Aware(local: int, offset: int) | Naive(local: int)

  /** A naive time is read as UTC, never as local time. */
  function Utc(i: Instant): int {
    if i.Aware? then i.local - i.offset else i.local
  }

  function DayOf(t: int): int {
    t / DAY
  }

  function Midnight(t: int): int {
    (DayOf(t) + 1) * DAY
  }

  datatype Key = Daily(lane: string, day: int) | PlacesTotal(keyId: string) | ApifyTotal

  const SHARED: string := ""
  const APIFY: string := "apify"

  function PlacesLane(keyId: string): string {
    "places:" + keyId
  }

  function DailyKey(t: int, lane: string): Key {
    Daily(lane, DayOf(t))
  }

  function SecondsUntilMidnight(t: int): int {
    Max(1, (Midnight(t) - t) / SECOND)
  }

  /** The counter a write creates dies with its day when the write falls on a whole second;
      otherwise it dies up to a second early, and in a day's last second up to a second late. */
  lemma KeyDiesWithItsDayIffWholeSecond(t: int)
    ensures var dies := t + SecondsUntilMidnight(t) * SECOND;
      && (dies == Midnight(t) <==> t % SECOND == 0)
      && Midnight(t) - SECOND < dies < Midnight(t) + SECOND
      && (dies > Midnight(t) ==> Midnight(t) - t < SECOND)
  {
    var left := Midnight(t) - t;
    assert 0 < left <= DAY by { assert t == DayOf(t) * DAY + t % DAY; }
    assert left == (left / SECOND) * SECOND + left % SECOND;
    WholeSecondsLeft(t);
  }

  /** A day is a whole number of seconds, so what is left of it is one iff the clock shows one. */
  lemma WholeSecondsLeft(t: int)
    ensures (Midnight(t) - t) % SECOND == 0 <==> t % SECOND == 0
  {
    var n := (DayOf(t) + 1) * 86_400;
    assert Midnight(t) == n * SECOND;
    var q, r := t / SECOND, t % SECOND;
    assert Midnight(t) - t == (n - q) * SECOND - r;
    if r != 0 {
      assert Midnight(t) - t == (n - q - 1) * SECOND + (SECOND - r);
      assert (Midnight(t) - t) % SECOND == SECOND - r;
    }
  }

  /** The key names the day and the TTL ends it: before the midnight it counts down to, the
      same instant still names the same key; from it on, another one. */
  lemma KeyAndMidnightAgree(t: int, u: int, lane: string)
    requires t <= u
    ensures DailyKey(u, lane) == DailyKey(t, lane) <==> u < Midnight(t)
  {
    if u < Midnight(t) {
      assert DayOf(t) * DAY <= t;
      assert DayOf(u) == DayOf(t);
    } else {
      assert DayOf(u) >= DayOf(t) + 1;
    }
  }

  // ---- The counters ----------------------------------------------------------------------

  type Counters = map<Key, int>

  function Get(c: Counters, k: Key): int {
    if k in c then c[k] else 0
  }

  /** A signed delta on a floored counter. */
  function Applied(c: Counters, k: Key, delta: int): Counters {
    c[k := Max(0, Get(c, k) + delta)]
  }

  /** A plain INCRBYFLOAT. */
  function Added(c: Counters, k: Key, delta: int): Counters {
    c[k := Get(c, k) + delta]
  }

  function Recorded(c: Counters, usd: int, lane: string, now: int): Counters {
    Applied(c, DailyKey(now, lane), Max(0, usd))
  }

  function PlacesRecorded(c: Counters, usd: int, keyId: string, now: int): Counters {
    Added(Recorded(c, usd, PlacesLane(keyId), now), PlacesTotal(keyId), Max(0, usd))
  }

  function ApifyRecorded(c: Counters, usd: int, now: int): Counters {
    Added(Recorded(c, usd, APIFY, now), ApifyTotal, Max(0, usd))
  }

  /** The part of a settlement's delta that belongs on today's key. */
  function DeltaToday(reserved: int, actual: int, reservedAt: Option<Instant>, now: int): int {
    if reservedAt.Some? && DayOf(Utc(reservedAt.value)) != DayOf(now)
    then Max(0, actual - reserved)
    else actual - reserved
  }

  function Reconciled(c: Counters, reserved: int, actual: int, reservedAt: Option<Instant>, now: int): Counters {
    Applied(c, DailyKey(now, SHARED), DeltaToday(reserved, actual, reservedAt, now))
  }

  function ApifySettled(c: Counters, reserved: int, actual: int, reservedAt: Instant, now: int): Counters {
    Applied(Applied(c, ApifyTotal, actual - reserved),
            DailyKey(now, APIFY), DeltaToday(reserved, actual, Some(reservedAt), now))
  }

  datatype Verdict = Pass | CostGuardError | ProviderBalanceError

  /** pre_dispatch_check: at or over the budget raises. */
  function LlmVerdict(c: Counters, budget: int, projected: int, now: int): Verdict {
    if Get(c, DailyKey(now, SHARED)) + projected >= budget then CostGuardError else Pass
  }

  /** Both lane checks share this: the total wall wins over the daily one. */
  function LaneVerdict(total: int, daily: int, projected: int, totalCap: Option<int>, dailyCap: int): Verdict {
    if totalCap.Some? && total + projected > totalCap.value then ProviderBalanceError
    else if daily + projected > dailyCap then CostGuardError
    else Pass
  }

  /**
   The Redis that holds the counters and their expiries. Every method issues the commands the
   guard issues, one after the other.
   */
  class Store {
    var counters: Counters
    var expires: map<Key, int>

    constructor ()
      ensures counters == map[] && expires == map[]
    {
      counters, expires := map[], map[];
    }

    method IncrBy(k: Key, delta: int) returns (total: int)
      modifies this`counters
      ensures counters == Added(old(counters), k, delta) && total == Get(counters, k)
    {
      counters := counters[k := (if k in counters then counters[k] else 0) + delta];
      total := counters[k];
    }

    /** _incr: never left below zero, and never without an expiry. */
    method Incr(delta: int, lane: string, now: int) returns (total: int)
      modifies this
      ensures counters == Applied(old(counters), DailyKey(now, lane), delta)
      ensures total == Get(counters, DailyKey(now, lane)) >= 0
      ensures var k := DailyKey(now, lane);
        expires == if k in old(expires) then old(expires)
                   else old(expires)[k := now + SecondsUntilMidnight(now) * SECOND]
    {
      var k := DailyKey(now, lane);
      total := IncrBy(k, delta);
      if total < 0 {
        total := IncrBy(k, -total);
      }
      if k !in expires {
        expires := expires[k := now + SecondsUntilMidnight(now) * SECOND];
      }
    }

    method RecordSpend(usd: int, lane: string, now: int) returns (total: int)
      modifies this
      ensures counters == Recorded(old(counters), usd, lane, now)
      ensures total == Get(counters, DailyKey(now, lane))
    {
      total := Incr(Max(0, usd), lane, now);
    }

    method RecordPlacesSpend(usd: int, keyId: string, now: int)
      modifies this
      ensures counters == PlacesRecorded(old(counters), usd, keyId, now)
    {
      var spent := Max(0, usd);
      var daily := RecordSpend(spent, PlacesLane(keyId), now);
      var total := IncrBy(PlacesTotal(keyId), spent);
    }

    method RecordApifySpend(usd: int, now: int)
      modifies this
      ensures counters == ApifyRecorded(old(counters), usd, now)
    {
      var spent := Max(0, usd);
      var daily := RecordSpend(spent, APIFY, now);
      var total := IncrBy(ApifyTotal, spent);
    }

    method SettleApifySpend(reserved: int, actual: int, reservedAt: Instant, now: int)
      modifies this
      ensures counters == ApifySettled(old(counters), reserved, actual, reservedAt, now)
    {
      var delta := actual - reserved;
      var total := IncrBy(ApifyTotal, delta);
      if total < 0 {
        total := IncrBy(ApifyTotal, -total);
      }
      if DailyKey(Utc(reservedAt), SHARED) != DailyKey(now, SHARED) {
        delta := Max(0, delta);
      }
      var daily := Incr(delta, APIFY, now);
    }

    method ReconcileSpend(reserved: int, actual: int, reservedAt: Option<Instant>, now: int) returns (total: int)
      modifies this
      ensures counters == Reconciled(old(counters), reserved, actual, reservedAt, now)
      ensures total == Get(counters, DailyKey(now, SHARED)) >= 0
    {
      var delta := actual - reserved;
      if reservedAt.Some? && DailyKey(Utc(reservedAt.value), SHARED) != DailyKey(now, SHARED) {
        delta := Max(0, delta);
      }
      total := Incr(delta, SHARED, now);
    }

    method PreDispatchCheck(budget: int, projected: int, now: int) returns (v: Verdict)
      ensures v == LlmVerdict(counters, budget, projected, now)
    {
      var k := DailyKey(now, SHARED);
      var current := if k in counters then counters[k] else 0;
      if current + projected >= budget {
        return CostGuardError;
      }
      return Pass;
    }

    method PreDispatchCheckPlaces(cap: int, projected: int, keyId: Option<string>, totalCap: Option<int>, now: int)
      returns (v: Verdict)
      ensures v == if keyId.Some?
        then LaneVerdict(Get(counters, PlacesTotal(keyId.value)),
                         Get(counters, DailyKey(now, PlacesLane(keyId.value))), projected, totalCap, cap)
        else LaneVerdict(0, Get(counters, DailyKey(now, "places")), projected, None, cap)
    {
      if keyId.Some? && totalCap.Some? {
        if Get(counters, PlacesTotal(keyId.value)) + projected > totalCap.value {
          return ProviderBalanceError;
        }
      }
      var lane := if keyId.Some? then PlacesLane(keyId.value) else "places";
      if Get(counters, DailyKey(now, lane)) + projected > cap {
        return CostGuardError;
      }
      return Pass;
    }

    method PreDispatchCheckApify(projected: int, dailyCap: int, totalCap: int, now: int) returns (v: Verdict)
      ensures v == LaneVerdict(Get(counters, ApifyTotal), Get(counters, DailyKey(now, APIFY)),
                               projected, Some(totalCap), dailyCap)
    {
      if Get(counters, ApifyTotal) + projected > totalCap {
        return ProviderBalanceError;
      }
      if Get(counters, DailyKey(now, APIFY)) + projected > dailyCap {
        return CostGuardError;
      }
      return Pass;
    }
  }

  // ---- What the LLM check is worth ---------------------------------------------------------

  /** The check passes exactly when recording what it projected still leaves the day's counter
      under the budget. */
  lemma PassLeavesRoom(c: Counters, budget: int, projected: int, now: int)
    requires projected >= 0 && Get(c, DailyKey(now, SHARED)) >= 0
    ensures LlmVerdict(c, budget, projected, now) == Pass <==>
      Get(Recorded(c, projected, SHARED, now), DailyKey(now, SHARED)) < budget
  {
  }

  /** One dispatch after another: checked with its projection, then recorded at its real cost. */
  datatype Dispatch = Dispatch(projected: int, actual: int)

  function Dispatched(c: Counters, budget: int, ds: seq<Dispatch>, now: int): Counters {
    if ds == [] then c
    else
      var before, d := Dispatched(c, budget, ds[..|ds| - 1], now), ds[|ds| - 1];
      if LlmVerdict(before, budget, d.projected, now) == Pass then Recorded(before, d.actual, SHARED, now) else before
  }

  /** However many dispatches try in a day, the counter stays under the budget but for what one of
      them costs more than it projected: with projections that cover the cost, under the budget. */
  lemma {:induction false} DispatchesStayUnderBudget(c: Counters, budget: int, ds: seq<Dispatch>, now: int,
                                                     overrun: nat)
    requires forall i | 0 <= i < |ds| :: ds[i].projected >= 0 && ds[i].actual <= ds[i].projected + overrun
    requires 0 <= Get(c, DailyKey(now, SHARED)) < budget + overrun
    ensures 0 <= Get(Dispatched(c, budget, ds, now), DailyKey(now, SHARED)) < budget + overrun
  {
    if ds != [] {
      DispatchesStayUnderBudget(c, budget, ds[..|ds| - 1], now, overrun);
    }
  }

  // ---- reserved_at -----------------------------------------------------------------------

  /** Leaving reserved_at out does what passing it would do exactly when the reservation was
      booked today, or the settlement refunds nothing, or today's key has nothing to lose. */
  lemma OmittingReservedAtIsSafeIff(c: Counters, reserved: int, actual: int, at: Instant, now: int)
    requires Get(c, DailyKey(now, SHARED)) >= 0
    ensures Reconciled(c, reserved, actual, None, now) == Reconciled(c, reserved, actual, Some(at), now) <==>
      DayOf(Utc(at)) == DayOf(now) || actual >= reserved || Get(c, DailyKey(now, SHARED)) == 0
  {
    var k := DailyKey(now, SHARED);
    var a, b := Reconciled(c, reserved, actual, None, now), Reconciled(c, reserved, actual, Some(at), now);
    assert a == c[k := a[k]] && b == c[k := b[k]];
    assert a == b <==> a[k] == b[k];
  }
}
