/**
 What each call of the guard moves, counter by counter, and what each check lets through, in
 amounts and days.
 */
module CostGuardBooks {
  import opened Common
  import opened CostGuard

  /** A UTC day is 86,400 seconds, counted from the epoch. */
  predicate InDay(t: int, day: int) {
    day * 86_400_000_000 <= t < (day + 1) * 86_400_000_000
  }

  lemma DayOfIs(t: int, day: int)
    ensures DayOf(t) == day <==> InDay(t, day)
  {
    assert t == DAY * DayOf(t) + t % DAY;
    if day > DayOf(t) { assert day * DAY >= (DayOf(t) + 1) * DAY; }
    if day < DayOf(t) { assert (day + 1) * DAY <= DayOf(t) * DAY; }
  }

  /** An aware instant is its local time less its offset; a naive one is UTC already. */
  lemma UtcIs(local: int, offset: int)
    ensures Utc(Aware(local, offset)) + offset == local && Utc(Naive(local)) == local
  {
  }

  /** `c'` is `c` but for what `k` holds. */
  predicate OnlyMoves(c: Counters, c': Counters, k: Key, to: int) {
    Get(c', k) == to && forall o | o in c.Keys + c'.Keys && o != k :: Get(c', o) == Get(c, o)
  }

  /** A spend of a lane is on that lane's key of the day, and a negative one is nothing. */
  lemma SpendMoves(c: Counters, usd: int, lane: string, now: int, day: int)
    requires InDay(now, day) && Get(c, Daily(lane, day)) >= 0
    ensures OnlyMoves(c, Recorded(c, usd, lane, now), Daily(lane, day),
                      Get(c, Daily(lane, day)) + if usd > 0 then usd else 0)
  {
    DayOfIs(now, day);
  }

  /** A Places call is on the day and on the total of its key. */
  lemma PlacesSpendMoves(c: Counters, usd: int, keyId: string, now: int, day: int)
    requires InDay(now, day) && Get(c, Daily("places:" + keyId, day)) >= 0
    ensures var k, spent := Daily("places:" + keyId, day), if usd > 0 then usd else 0;
      var c' := PlacesRecorded(c, usd, keyId, now);
      && Get(c', k) == Get(c, k) + spent && Get(c', PlacesTotal(keyId)) == Get(c, PlacesTotal(keyId)) + spent
      && forall o | o != k && o != PlacesTotal(keyId) :: Get(c', o) == Get(c, o)
  {
    DayOfIs(now, day);
  }

  /** An Apify charge is on the day and on the one total. */
  lemma ApifySpendMoves(c: Counters, usd: int, now: int, day: int)
    requires InDay(now, day) && Get(c, Daily("apify", day)) >= 0
    ensures var k, spent := Daily("apify", day), if usd > 0 then usd else 0;
      var c' := ApifyRecorded(c, usd, now);
      && Get(c', k) == Get(c, k) + spent && Get(c', ApifyTotal) == Get(c, ApifyTotal) + spent
      && forall o | o != k && o != ApifyTotal :: Get(c', o) == Get(c, o)
  {
    DayOfIs(now, day);
  }

  /** A reservation settled on the day it was booked, or without its day, moves today's key by what it
      cost more or less; settled on another day, only by what it cost more. Never below zero. */
  lemma SettlementMoves(c: Counters, reserved: int, actual: int, at: Option<Instant>, now: int, day: int)
    requires InDay(now, day) && Get(c, Daily("", day)) >= 0
    ensures var k := Daily("", day);
      var full := Get(c, k) + actual - reserved;
      var c' := Reconciled(c, reserved, actual, at, now);
      && (at.None? || InDay(Utc(at.value), day) ==> OnlyMoves(c, c', k, if full > 0 then full else 0))
      && (at.Some? && !InDay(Utc(at.value), day) ==> OnlyMoves(c, c', k, if actual > reserved then full else Get(c, k)))
  {
    DayOfIs(now, day);
    if at.Some? { DayOfIs(Utc(at.value), day); }
    hide InDay;
  }

  /** An Apify settlement moves the total by the whole difference, and the day as any settlement. */
  lemma ApifySettlementMoves(c: Counters, reserved: int, actual: int, at: Instant, now: int, day: int)
    requires InDay(now, day) && Get(c, Daily("apify", day)) >= 0
    ensures var k := Daily("apify", day);
      var full, total := Get(c, k) + actual - reserved, Get(c, ApifyTotal) + actual - reserved;
      var c' := ApifySettled(c, reserved, actual, at, now);
      && Get(c', ApifyTotal) == (if total > 0 then total else 0)
      && (InDay(Utc(at), day) ==> Get(c', k) == if full > 0 then full else 0)
      && (!InDay(Utc(at), day) ==> Get(c', k) == if actual > reserved then full else Get(c, k))
      && forall o | o != k && o != ApifyTotal :: Get(c', o) == Get(c, o)
  {
    DayOfIs(now, day);
    DayOfIs(Utc(at), day);
    hide InDay;
  }

  /** The LLM check raises exactly when the day's spend and the projection reach the budget. */
  lemma LlmCheckIs(c: Counters, budget: int, projected: int, now: int, day: int)
    requires InDay(now, day)
    ensures var v := LlmVerdict(c, budget, projected, now);
      && (v == CostGuardError <==> Get(c, Daily("", day)) + projected >= budget)
      && (v == Pass <==> Get(c, Daily("", day)) + projected < budget)
  {
    DayOfIs(now, day);
  }

  /** A lane's check raises exactly when a cap would be exceeded; the balance wall, where there is one,
      before the daily one. */
  lemma LaneCheckIs(total: int, daily: int, projected: int, totalCap: Option<int>, dailyCap: int)
    ensures var v := LaneVerdict(total, daily, projected, totalCap, dailyCap);
      && (v == ProviderBalanceError <==> totalCap.Some? && total + projected > totalCap.value)
      && (v == Pass <==> (totalCap.None? || total + projected <= totalCap.value) && daily + projected <= dailyCap)
  {
  }
}
