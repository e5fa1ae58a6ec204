/**
 What a start leaves, key by key and column by column, and what its plan decides at the end.
 */
module EngineStarts {
  import opened Common
  import opened Engine
  import opened EngineCommands
  import opened EngineSolo
  import opened EngineRace

  /** The four answers of start, and when it gives them. */
  lemma StartAnswers(s: State, r: Request, id: RunId, db: bool, now: int)
    ensures var o := Start(s, r, id, db, now).1;
      var sources := if r.validSources.Some? then r.validSources.value else {"default", "tripadvisor"};
      var badDepth := r.action == "sweep" && r.depth !in {"nascente", "nascente_rio", "nascente_rio_mar"};
      && (o == AlreadyActive <==> s.phase == Running || s.phase == Stopping)
      && (o == InvalidDepth <==> s.phase == Idle && badDepth)
      && (o == InvalidSource <==> s.phase == Idle && !badDepth && r.action == "sweep" && r.source !in sources)
      && (o == AlreadyActive ==> Start(s, r, id, db, now).0 == s)
  {
  }

  /** The keys of a started run. The plan is the units the request gives, else one for each UF. */
  lemma StartedKeys(s: State, r: Request, id: RunId, db: bool, now: int)
    requires Start(s, r, id, db, now).1 == Started(id)
    ensures var k := Start(s, r, id, db, now).0;
      && k.phase == Running && k.mode == Ligado && k.enabled && k.runId == Some(id) && k.reason.None?
      && k.inflight == 0 && k.failed == 0 && k.done == 0 && k.currentUf.None? && !k.dispatchDone && !k.ended
      && (r.unitsTotal.Some? ==> k.total == r.unitsTotal.value) && (r.unitsTotal.None? ==> k.total == |r.ufs|)
      && (r.action == "sweep" ==> k.depth == Some(r.depth) && k.source == Some(r.source))
      && (r.action != "sweep" ==> k.depth == s.depth && k.source == s.source)
  {
  }

  /** The row of a started run, unless the insert fails, which takes the durable mode back with it. */
  lemma StartedRow(s: State, r: Request, id: RunId, db: bool, now: int)
    requires Start(s, r, id, db, now).1 == Started(id)
    ensures var k := Start(s, r, id, db, now).0;
      if db && id !in s.rows then
        && k.durableMode == Some(Ligado) && id in k.rows
        && var row := k.rows[id];
           && row.ufs == r.ufs && row.source == r.source && row.depth == r.depth && row.lane == r.lane
           && (r.unitsTotal.Some? ==> row.total == r.unitsTotal.value)
           && (r.unitsTotal.None? ==> row.total == |r.ufs|)
           && row.status == InProgress && row.dispatched == 0 && row.endedAt.None?
      else k.durableMode == s.durableMode && k.rows.Keys == s.rows.Keys
  {
  }

  /** Of the rows there were, a start changes one: that of a run forced idle, which it closes. */
  lemma StartedClosesThePrevious(s: State, r: Request, id: RunId, db: bool, now: int, other: RunId)
    requires s.phase == Idle && other in s.rows && other != id
    ensures var k := Start(s, r, id, db, now).0;
      && other in k.rows
      && (db && s.runId == Some(other) && !s.ended ==>
            k.rows[other] == s.rows[other].(status := Parcial, dispatched := s.done, endedAt := Some(now)))
      && (!(db && s.runId == Some(other) && !s.ended) ==> k.rows[other] == s.rows[other])
  {
  }

  /** Dispatched at least what the request plans. */
  predicate PlanMet(r: Request, units: int) {
    (r.unitsTotal.Some? ==> units >= r.unitsTotal.value) && (r.unitsTotal.None? ==> units >= |r.ufs|)
  }

  lemma PlanKey(before: State, req: Request, id: RunId, now: int, units: int)
    requires FreshStart(before, req, id)
    ensures units >= Opened(before, req, id, now).keys.total <==> PlanMet(req, units)
  {
    StartedKeys(before, req, id, true, now);
    hide PlanSize;
  }

  /** Under every interleaving, a row "concluido" has dispatched what the request planned. */
  lemma ConcluidoMetThePlan(before: State, req: Request, id: RunId, now: int, tr: seq<Label>)
    requires FreshStart(before, req, id) && RowIs(Run(Opened(before, req, id, now), tr), Concluido)
    ensures var w := Run(Opened(before, req, id, now), tr);
      id in w.keys.rows && PlanMet(req, w.keys.rows[id].dispatched)
  {
    var w0 := Opened(before, req, id, now);
    OpenedHasInv(before, req, id, now);
    InvAlwaysHolds(w0, tr);
    RunIdIsConstant(w0, tr);
    TotalIsConstant(w0, tr);
    PlanKey(before, req, id, now, Run(w0, tr).keys.rows[id].dispatched);
    hide Opened, PlanMet;
  }

  lemma {:induction false} TotalIsConstant(w: World, tr: seq<Label>)
    ensures Run(w, tr).keys.total == w.keys.total
  {
    if tr != [] {
      var init, l := tr[..|tr| - 1], tr[|tr| - 1];
      TotalIsConstant(w, init);
      var u := Run(w, init);
      if l.Advance? && l.p in u.pcs { CommandWrites(u.pcs[l.p], u.keys, u.run, l.now); }
      hide NextKeys, NextPC;
    }
  }

  /** And the other way: a verb that completes the run from any reachable state closes it as
      "concluido" exactly when it finds it running, LIGADO, with no failure and the plan met, and
      as "parcial" otherwise; the row keeps the units dispatched. */
  lemma CompletionTellsThePlan(before: State, req: Request, id: RunId, now: int, tr: seq<Label>, p: Pid, at: int)
    requires FreshStart(before, req, id)
    requires var w := Run(Opened(before, req, id, now), tr);
      Is(w, p, ReadInflight) && w.keys.inflight == 0 && w.keys.dispatchDone && !w.keys.ended
    ensures var w := Run(Opened(before, req, id, now), tr);
      var k := Solo(w, p, at).keys;
      && k.ended && k.phase == Idle && id in k.rows && k.rows[id].dispatched == w.keys.done
      && k.rows[id].endedAt == Some(at)
      && k.rows[id].status == (if w.keys.phase == Running && w.keys.mode == Ligado && w.keys.failed == 0
                                  && PlanMet(req, w.keys.done) then Concluido else Parcial)
  {
    var w0 := Opened(before, req, id, now);
    var w := Run(w0, tr);
    OpenedHasInv(before, req, id, now);
    InvAlwaysHolds(w0, tr);
    RunIdIsConstant(w0, tr);
    TotalIsConstant(w0, tr);
    PlanKey(before, req, id, now, w.keys.done);
    SoloHere(w, p, ReadInflight);
    SoloMaybeComplete(w, p, w.keys, at);
    FailuresAreCounted(w);
    hide Run, Opened, PlanMet, Solo, Inv;
  }

  lemma FailuresAreCounted(w: World)
    requires Inv(w)
    ensures w.keys.failed >= 0 && w.run in w.keys.rows
  {
  }

  /** One producer, n units: the whole run with nobody else, by verbs. */
  lemma RunOfOneProducer(s: State, r: Request, id: RunId, n: nat, now: int)
    requires FreshStart(s, r, id)
    ensures var k1 := Start(s, r, id, true, now).0;
      var (k2, claimed) := ClaimProducer(k1, Some(id));
      var k3 := Progress(k2, Some(id), n, None);
      var (k4, early) := ProducerDone(k3, Some(id), false, true, now);
      var (k5, won) := DispatchFinished(k4, Some(id), true, now);
      && claimed == Some(id) && !early && won && k5.ended && k5.phase == Idle && k5.mode == Desligado
      && id in k5.rows && k5.rows[id].dispatched == n
      && k5.rows[id].status == if PlanMet(r, n) then Concluido else Parcial
  {
    StartedKeys(s, r, id, true, now);
    StartedRow(s, r, id, true, now);
    hide Start;
  }

  /** The bulk sweep of one page out of 334 is not complete, though its one UF is. */
  lemma OnePageIsPartial(r: Request, id: RunId, now: int)
    requires FreshStart(FLUSHED, r, id) && r.ufs == ["BR"] && r.unitsTotal == Some(334)
    ensures !PlanMet(r, 1)
  {
  }
}
