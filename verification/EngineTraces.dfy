/**
 Whole runs of the engine with atomic verbs: generation isolation, the runs_history ledger and
 the reasoned pause, over every sequence of verb calls.
 */
module EngineTraces {
  import opened Common
  import opened Engine

  datatype Event =
    | StartRun(req: Request, id: RunId, db: bool, now: int)
    | AbortRun(id: RunId, db: bool, now: int)
    | Stop
    | Claim(rid: Option<RunId>)
    | Dispatched(rid: Option<RunId>, n: int, uf: Option<string>)
    | Done(rid: Option<RunId>, failed: bool, db: bool, now: int)
    | Finish(rid: Option<RunId>, db: bool, now: int)
    | PauseFor(reason: string, provider: Option<string>, action: Option<string>, at: int)
    | SwitchMode(mode: Mode, db: bool)

  datatype Output = Quiet | Outcome(start: StartOutcome) | Asked(b: bool) | Claimed(rid: Option<RunId>) | Won(b: bool)

  function Step(s: State, e: Event): (State, Output) {
    match e
    case StartRun(req, id, db, now) => var (t, o) := Start(s, req, id, db, now); (t, Outcome(o))
    case AbortRun(id, db, now) => (Abort(s, id, db, now), Quiet)
    case Stop => var (t, b) := RequestStop(s); (t, Asked(b))
    case Claim(rid) => var (t, c) := ClaimProducer(s, rid); (t, Claimed(c))
    case Dispatched(rid, n, uf) => (Progress(s, rid, n, uf), Quiet)
    case Done(rid, failed, db, now) => var (t, b) := ProducerDone(s, rid, failed, db, now); (t, Won(b))
    case Finish(rid, db, now) => var (t, b) := DispatchFinished(s, rid, db, now); (t, Won(b))
    case PauseFor(reason, provider, action, at) => (PauseWithReason(s, reason, provider, action, at), Quiet)
    case SwitchMode(mode, db) => (WithMode(s, mode, db), Quiet)
  }

  /** The state after a whole trace. */
  function Run(s: State, tr: seq<Event>): State {
    if tr == [] then s else Step(Run(s, tr[..|tr| - 1]), tr[|tr| - 1]).0
  }

  /** What each call of the trace returned. */
  function Outputs(s: State, tr: seq<Event>): seq<Output> {
    if tr == [] then [] else
      Outputs(s, tr[..|tr| - 1]) + [Step(Run(s, tr[..|tr| - 1]), tr[|tr| - 1]).1]
  }

  lemma RunSnoc(s: State, tr: seq<Event>, e: Event)
    ensures Run(s, tr + [e]) == Step(Run(s, tr), e).0
    ensures Outputs(s, tr + [e]) == Outputs(s, tr) + [Step(Run(s, tr), e).1]
  {
    assert (tr + [e])[..|tr|] == tr;
  }

  // ---- Generation isolation -------------------------------------------------------------

  /** The participant verbs: calls a producer or an orchestrator makes about "its" run. */
  predicate Participant(e: Event) {
    e.Claim? || e.Dispatched? || e.Done? || e.Finish?
  }

  /** A call that addresses a generation other than the current one, or producer_done(None). */
  predicate Stale(s: State, e: Event) {
    Participant(e) && if e.rid.None? then e.Done? else e.rid != s.runId
  }

  /** What a refused call returns. */
  predicate Refusal(o: Output) {
    o == Quiet || o == Claimed(None) || o == Won(false)
  }

  lemma StaleCallIsInert(s: State, e: Event)
    requires Stale(s, e)
    ensures Step(s, e).0 == s && Refusal(Step(s, e).1)
  {
  }

  /** The trace without the calls that were stale when they were made. */
  function Erase(s: State, tr: seq<Event>): seq<Event> {
    if tr == [] then [] else
      var init, last := tr[..|tr| - 1], tr[|tr| - 1];
      Erase(s, init) + if Stale(Run(s, init), last) then [] else [last]
  }

  /** What the calls that were not stale returned, in order. */
  function KeptOutputs(s: State, tr: seq<Event>): seq<Output> {
    if tr == [] then [] else
      var init, last := tr[..|tr| - 1], tr[|tr| - 1];
      KeptOutputs(s, init) + if Stale(Run(s, init), last) then [] else [Step(Run(s, init), last).1]
  }

  /** Deleting every stale call changes neither the keys, nor the rows, nor any other result. */
  lemma {:induction false} StaleCallsAreErasable(s: State, tr: seq<Event>)
    ensures Run(s, Erase(s, tr)) == Run(s, tr)
    ensures Outputs(s, Erase(s, tr)) == KeptOutputs(s, tr)
  {
    if tr != [] {
      var init, last := tr[..|tr| - 1], tr[|tr| - 1];
      StaleCallsAreErasable(s, init);
      if Stale(Run(s, init), last) {
        StaleCallIsInert(Run(s, init), last);
        assert Erase(s, tr) == Erase(s, init);
        assert KeptOutputs(s, tr) == KeptOutputs(s, init);
      } else {
        RunSnoc(s, Erase(s, init), last);
        assert Erase(s, tr) == Erase(s, init) + [last];
      }
    }
  }

  /** No start of the trace draws a uuid of `olds`. */
  predicate FreshFor(tr: seq<Event>, olds: set<RunId>) {
    forall i | 0 <= i < |tr| :: tr[i].StartRun? ==> tr[i].id !in olds
  }

  /** The trace without the calls of the producers and orchestrators of the runs in `olds`,
      and without the producers that ran outside any run. Unlike Erase it looks at no state. */
  function WithoutStragglers(tr: seq<Event>, olds: set<RunId>): seq<Event> {
    if tr == [] then [] else
      var init, last := tr[..|tr| - 1], tr[|tr| - 1];
      WithoutStragglers(init, olds) + if Straggler(last, olds) then [] else [last]
  }

  predicate Straggler(e: Event, olds: set<RunId>) {
    Participant(e) && if e.rid.None? then e.Done? else e.rid.value in olds
  }

  /** One call keeps the token, clears it, or sets it to the uuid a start drew. */
  lemma TokenStep(s: State, e: Event)
    ensures var t := Step(s, e).0.runId;
      t == s.runId || t.None? || (e.StartRun? && t == Some(e.id))
  {
  }

  /** A generation that is not current never becomes current again. */
  lemma {:induction false} OldGenerationsStayOld(s: State, tr: seq<Event>, olds: set<RunId>)
    requires s.runId.Some? ==> s.runId.value !in olds
    requires FreshFor(tr, olds)
    ensures Run(s, tr).runId.Some? ==> Run(s, tr).runId.value !in olds
  {
    if tr != [] {
      OldGenerationsStayOld(s, tr[..|tr| - 1], olds);
      TokenStep(Run(s, tr[..|tr| - 1]), tr[|tr| - 1]);
    }
  }

  /** Whatever the stragglers of old runs do, at any point and as often as they like, the run
      that replaced them ends with the same keys and the same rows as if they had done nothing. */
  lemma {:induction false} StragglersChangeNothing(s: State, tr: seq<Event>, olds: set<RunId>)
    requires s.runId.Some? ==> s.runId.value !in olds
    requires FreshFor(tr, olds)
    ensures Run(s, WithoutStragglers(tr, olds)) == Run(s, tr)
  {
    if tr != [] {
      var init, last := tr[..|tr| - 1], tr[|tr| - 1];
      StragglersChangeNothing(s, init, olds);
      OldGenerationsStayOld(s, init, olds);
      if Straggler(last, olds) {
        StaleCallIsInert(Run(s, init), last);
        assert WithoutStragglers(tr, olds) == WithoutStragglers(init, olds);
      } else {
        RunSnoc(s, WithoutStragglers(init, olds), last);
      }
    }
  }

  // ---- The runs_history ledger ----------------------------------------------------------

  /** The only row "running" is the current, not-ended run's; every row that is not running
      carries its end. */
  predicate Ledger(s: State) {
    && (forall id | id in s.rows :: s.rows[id].status == InProgress ==> s.runId == Some(id) && !s.ended)
    && (s.runId.Some? ==> s.runId.value in s.rows)
    && (s.runId.Some? && !s.ended ==> s.rows[s.runId.value].status == InProgress)
    && (s.phase != Idle ==> s.runId.Some? && !s.ended)
    && (forall id | id in s.rows :: s.rows[id].endedAt.None? <==> s.rows[id].status == InProgress)
  }

  /** The callers' discipline: requests validated at the API edge, a new uuid a start, abort
      only on the current run before it ended, and a database that commits. */
  predicate Disciplined(s: State, e: Event) {
    match e
    case StartRun(req, id, db, now) => db && ValidRequest(req) && id !in s.rows
    case AbortRun(id, db, now) => db && s.runId == Some(id) && !s.ended
    case Done(_, _, db, _) => db
    case Finish(_, db, _) => db
    case _ => true
  }

  /** Every call of the trace was disciplined in the state it met. */
  predicate DisciplinedTrace(tr: seq<Event>) {
    tr == [] ||
    var init, last := tr[..|tr| - 1], tr[|tr| - 1];
    DisciplinedTrace(init) && Disciplined(Run(FLUSHED, init), last)
  }

  /** The first half of a start leaves no row running. */
  lemma ResetClosesTheRow(s: State, req: Request, now: int)
    requires Ledger(s)
    ensures var rows := Reset(s, req, true, now).rows;
      rows.Keys == s.rows.Keys && forall k | k in rows :: rows[k].status != InProgress && rows[k].endedAt.Some?
  {
  }

  lemma StartKeepsLedger(s: State, req: Request, id: RunId, now: int)
    requires Ledger(s) && ValidRequest(req) && id !in s.rows
    ensures Ledger(Start(s, req, id, true, now).0)
  {
    ResetClosesTheRow(s, req, now);
    hide Finalized;
  }

  lemma CompletionKeepsLedger(s: State, id: RunId, now: int)
    requires Ledger(s) && s.runId == Some(id)
    ensures Ledger(MaybeComplete(s, id, true, now).0)
  {
  }

  lemma AbortKeepsLedger(s: State, id: RunId, now: int)
    requires Ledger(s) && s.runId == Some(id) && !s.ended
    ensures Ledger(Abort(s, id, true, now))
  {
  }

  /** The ledger depends on no key but these. */
  lemma LedgerFrame(s: State, t: State)
    requires Ledger(s) && t.rows == s.rows && t.runId == s.runId && t.ended == s.ended
    requires t.phase != Idle ==> s.phase != Idle
    ensures Ledger(t)
  {
  }

  lemma DoneKeepsLedger(s: State, rid: Option<RunId>, failed: bool, now: int)
    requires Ledger(s)
    ensures Ledger(ProducerDone(s, rid, failed, true, now).0)
  {
    if rid.Some? && Current(s, rid).Some? {
      var t := s.(failed := if failed then s.failed + 1 else s.failed, inflight := Max(0, s.inflight - 1));
      LedgerFrame(s, t);
      CompletionKeepsLedger(t, s.runId.value, now);
    }
  }

  lemma FinishKeepsLedger(s: State, rid: Option<RunId>, now: int)
    requires Ledger(s)
    ensures Ledger(DispatchFinished(s, rid, true, now).0)
  {
    if Current(s, rid).Some? {
      LedgerFrame(s, s.(dispatchDone := true));
      CompletionKeepsLedger(s.(dispatchDone := true), s.runId.value, now);
    }
  }

  lemma OtherCallsKeepLedger(s: State, e: Event)
    requires Ledger(s) && !e.StartRun? && !e.AbortRun? && !e.Done? && !e.Finish?
    ensures Ledger(Step(s, e).0)
  {
    LedgerFrame(s, Step(s, e).0);
  }

  lemma LedgerStep(s: State, e: Event)
    requires Ledger(s) && Disciplined(s, e)
    ensures Ledger(Step(s, e).0)
  {
    match e
    case StartRun(req, id, db, now) => StartKeepsLedger(s, req, id, now);
    case AbortRun(id, db, now) => AbortKeepsLedger(s, id, now);
    case Done(rid, failed, db, now) => DoneKeepsLedger(s, rid, failed, now);
    case Finish(rid, db, now) => FinishKeepsLedger(s, rid, now);
    case _ => OtherCallsKeepLedger(s, e);
  }

  lemma {:induction false} LedgerAlwaysHolds(tr: seq<Event>)
    requires DisciplinedTrace(tr)
    ensures Ledger(Run(FLUSHED, tr))
  {
    if tr != [] {
      var init, last := tr[..|tr| - 1], tr[|tr| - 1];
      LedgerAlwaysHolds(init);
      LedgerStep(Run(FLUSHED, init), last);
    }
  }

  /** How one call may change one row: a start inserts it; a completion, an abort or the next
      start closes it while it is running; nothing else touches it. */
  predicate LegalRowChange(s: State, e: Event, id: RunId) {
    var t := Step(s, e).0;
    && (id in s.rows ==> id in t.rows)
    && (id !in s.rows && id in t.rows ==>
          Step(s, e).1 == Outcome(Started(id)) && t.rows[id] == NewRow(e.req))
    && (id in s.rows && t.rows[id] != s.rows[id] ==>
          && s.rows[id].status == InProgress && s.runId == Some(id) && !s.ended
          && ( || (Step(s, e).1 == Won(true) && t.rows[id].dispatched == s.done &&
                   (t.rows[id].status == Concluido || t.rows[id].status == Parcial))
               || (e.AbortRun? && t.rows[id].status == Falha && t.rows[id].dispatched == 0)
               || (e.StartRun? && s.phase == Idle && t.rows[id].status == Parcial &&
                   t.rows[id].dispatched == s.done)))
  }

  lemma RowsChangeLegally(s: State, e: Event, id: RunId)
    requires Ledger(s) && Disciplined(s, e)
    ensures LegalRowChange(s, e, id)
  {
  }

  /** The row `id` is closed, with these contents. */
  predicate Closed(s: State, id: RunId, row: Row) {
    id in s.rows && s.rows[id] == row && row.status != InProgress
  }

  lemma ClosedRowStays(s: State, e: Event, id: RunId, row: Row)
    requires Ledger(s) && Disciplined(s, e) && Closed(s, id, row)
    ensures Closed(Step(s, e).0, id, row)
  {
    RowsChangeLegally(s, e, id);
  }

  /** A terminal status is written once: from then on the row never changes. */
  lemma {:induction false} TerminalRowsAreFinal(early: seq<Event>, late: seq<Event>, id: RunId, row: Row)
    requires DisciplinedTrace(early + late) && Closed(Run(FLUSHED, early), id, row)
    ensures Closed(Run(FLUSHED, early + late), id, row)
    decreases |late|
  {
    if late == [] {
      assert early + late == early;
    } else {
      var init, last := late[..|late| - 1], late[|late| - 1];
      assert early + late == (early + init) + [last];
      assert (early + late)[..|early + init|] == early + init;
      TerminalRowsAreFinal(early, init, id, row);
      LedgerAlwaysHolds(early + init);
      ClosedRowStays(Run(FLUSHED, early + init), last, id, row);
    }
  }

  /** start raises on an invalid depth or source only after it reset the keys, and the ledger
      survives such a start exactly when the request was valid. */
  lemma StartKeepsLedgerIffValid(s: State, req: Request, id: RunId, now: int)
    requires Ledger(s) && s.phase == Idle && id !in s.rows
    ensures Ledger(Start(s, req, id, true, now).0) <==> ValidRequest(req)
  {
    if ValidRequest(req) {
      StartKeepsLedger(s, req, id, now);
    } else {
      ResetClosesTheRow(s, req, now);
      InvalidStartOnlyResets(s, req, id, now);
      hide Start, Reset;
    }
  }

  lemma InvalidStartOnlyResets(s: State, req: Request, id: RunId, now: int)
    requires s.phase == Idle && !ValidRequest(req)
    ensures var t := Start(s, req, id, true, now).0;
      t.rows == Reset(s, req, true, now).rows && t.runId == s.runId && !t.ended && t.phase == Running
  {
    hide Finalized;
  }

  const R1: RunId := "r1"

  function Describe(action: string): Request {
    Request(action, "full", "default", [], "atrativos", None, None)
  }

  /** The same failure on a whole run: after "r1" completed, a start that raises lets an old
      dispatch_finished complete it a second time and rewrite its row. */
  lemma InvalidStartRewritesAClosedRow()
    ensures var done := [StartRun(Describe("describe"), R1, true, 0), Finish(Some(R1), true, 1)];
            var tr := done + [StartRun(Describe("sweep"), "r2", true, 2), Finish(Some(R1), true, 3)];
      && R1 in Run(FLUSHED, done).rows && Run(FLUSHED, done).rows[R1].status == Concluido
      && R1 in Run(FLUSHED, tr).rows && Run(FLUSHED, tr).rows[R1] != Run(FLUSHED, done).rows[R1]
  {
    var a := StartRun(Describe("describe"), R1, true, 0);
    var b := Finish(Some(R1), true, 1);
    var c := StartRun(Describe("sweep"), "r2", true, 2);
    var d := Finish(Some(R1), true, 3);
    RunSnoc(FLUSHED, [], a);
    RunSnoc(FLUSHED, [a], b);
    RunSnoc(FLUSHED, [a, b], c);
    RunSnoc(FLUSHED, [a, b, c], d);
    assert [] + [a] == [a] && [a] + [b] == [a, b] && [a, b] + [c] == [a, b, c];
    assert [a, b, c] + [d] == [a, b] + [c, d];
    var s := Run(FLUSHED, [a]);
    assert R1 in s.rows && s.rows[R1] == NewRow(Describe("describe"));
    var t := Run(FLUSHED, [a, b]);
    assert t.rows[R1].endedAt == Some(1);
    var u := Run(FLUSHED, [a, b, c]);
    assert "full" !in VALID_DEPTHS;
    assert t.ended && t.phase == Idle;
    assert u == Reset(t, Describe("sweep"), true, 2) && u.rows == t.rows;
    assert u.runId == Some(R1) && !u.ended && u.inflight == 0;
    assert Step(u, d).1 == Won(true);
    assert Step(u, d).0.rows[R1].endedAt == Some(3);
  }

  /** abort on a run that already completed overwrites its status: why it is used only before. */
  lemma AbortAfterCompletionOverwrites(s: State, id: RunId, now: int)
    requires Ledger(s) && id in s.rows && !(s.runId == Some(id) && !s.ended)
    ensures s.rows[id].status != InProgress && Abort(s, id, true, now).rows[id].status == Falha
  {
  }

  // ---- The reasoned pause ---------------------------------------------------------------

  /** The calls that clear a recorded reason: an effective start, LIGADO, DESLIGADO. */
  predicate Removes(s: State, e: Event) {
    || (e.SwitchMode? && e.mode != Pausado)
    || (e.StartRun? && Step(s, e).1.start.Started?)
  }

  predicate RemovalAt(s: State, tr: seq<Event>, j: nat)
    requires j < |tr|
  {
    Removes(Run(s, tr[..j]), tr[j])
  }

  /** The pause at `i` has not been removed by the end of the trace. */
  predicate Standing(s: State, tr: seq<Event>, i: int) {
    0 <= i < |tr| && tr[i].PauseFor? && forall j | i < j < |tr| :: !RemovalAt(s, tr, j)
  }

  predicate LastStanding(s: State, tr: seq<Event>, i: int) {
    Standing(s, tr, i) && forall j | i < j < |tr| :: !tr[j].PauseFor?
  }

  predicate LastNamed(s: State, tr: seq<Event>, i: int) {
    Standing(s, tr, i) && tr[i].action.Some? && forall j | i < j < |tr| :: tr[j].PauseFor? ==> tr[j].action.None?
  }

  /** A recorded reason implies PAUSADO, and it is recorded iff some pause is still standing. */
  ghost predicate ReasonMeans(s: State, tr: seq<Event>) {
    var t := Run(s, tr);
    && (t.reason.Some? ==> t.mode == Pausado)
    && (t.reason.Some? <==> exists i :: Standing(s, tr, i))
  }

  /** The recorded reason and provider are the last pause's. */
  ghost predicate DetailMeans(s: State, tr: seq<Event>) {
    var t := Run(s, tr);
    forall i :: LastStanding(s, tr, i) ==>
      t.reason.Some? && t.reason.value == Pause(tr[i].reason, tr[i].provider, t.reason.value.action, tr[i].at)
  }

  /** The recorded action is the last one a standing pause named, and there is none iff no
      standing pause named one. */
  ghost predicate ActionMeans(s: State, tr: seq<Event>) {
    var t := Run(s, tr);
    && (forall i :: LastNamed(s, tr, i) ==> t.reason.Some? && t.reason.value.action == tr[i].action)
    && (t.reason.Some? && t.reason.value.action.Some? ==> exists i :: LastNamed(s, tr, i))
  }

  lemma StandingSnoc(s: State, tr: seq<Event>, e: Event, i: int)
    ensures 0 <= i < |tr| ==>
      (Standing(s, tr + [e], i) <==> Standing(s, tr, i) && !Removes(Run(s, tr), e))
    ensures Standing(s, tr + [e], |tr|) <==> e.PauseFor?
    ensures 0 <= i < |tr| ==>
      (LastNamed(s, tr + [e], i) <==>
         LastNamed(s, tr, i) && !Removes(Run(s, tr), e) && (e.PauseFor? ==> e.action.None?))
    ensures LastNamed(s, tr + [e], |tr|) <==> e.PauseFor? && e.action.Some?
  {
    var all := tr + [e];
    assert all[..|tr|] == tr;
    forall j | 0 <= j < |tr| ensures RemovalAt(s, all, j) == RemovalAt(s, tr, j) && all[j] == tr[j] {
      assert all[..j] == tr[..j];
    }
    assert RemovalAt(s, all, |tr|) == Removes(Run(s, tr), e);
  }

  /** Every call keeps the recorded reason, removes it, or is itself a pause. */
  lemma ReasonStep(s: State, e: Event)
    ensures Removes(s, e) ==> Step(s, e).0.reason.None?
    ensures !Removes(s, e) && !e.PauseFor? ==> Step(s, e).0.reason == s.reason
    ensures e.PauseFor? ==> Step(s, e).0.reason.Some? && Step(s, e).0.mode == Pausado
    ensures s.reason.Some? && s.mode == Pausado && !Removes(s, e) ==> Step(s, e).0.mode == Pausado
  {
  }

  lemma {:induction false} ReasonAlwaysMeans(tr: seq<Event>)
    ensures ReasonMeans(FLUSHED, tr)
  {
    if tr != [] {
      var init, e := tr[..|tr| - 1], tr[|tr| - 1];
      ReasonAlwaysMeans(init);
      assert tr == init + [e];
      forall i { StandingSnoc(FLUSHED, init, e, i); }
      var before := Run(FLUSHED, init);
      ReasonStep(before, e);
      if e.PauseFor? {
        assert Standing(FLUSHED, tr, |init|);
      } else if before.reason.Some? && !Removes(before, e) {
        var i :| Standing(FLUSHED, init, i);
        assert Standing(FLUSHED, tr, i);
      }
    }
  }

  lemma {:induction false} DetailAlwaysMeans(tr: seq<Event>)
    ensures DetailMeans(FLUSHED, tr)
  {
    if tr != [] {
      var init, e := tr[..|tr| - 1], tr[|tr| - 1];
      DetailAlwaysMeans(init);
      assert tr == init + [e];
      ReasonStep(Run(FLUSHED, init), e);
      forall i | LastStanding(FLUSHED, tr, i) && i < |init|
        ensures !e.PauseFor? && !Removes(Run(FLUSHED, init), e) && LastStanding(FLUSHED, init, i)
      {
        StandingSnoc(FLUSHED, init, e, i);
        assert tr[|init|] == e;
        forall j | i < j < |init| ensures !init[j].PauseFor? { assert tr[j] == init[j]; }
      }
    }
  }

  lemma {:induction false} ActionAlwaysMeans(tr: seq<Event>)
    ensures ActionMeans(FLUSHED, tr)
  {
    if tr != [] {
      var init, e := tr[..|tr| - 1], tr[|tr| - 1];
      ActionAlwaysMeans(init);
      assert tr == init + [e];
      forall i { StandingSnoc(FLUSHED, init, e, i); }
      var before, after := Run(FLUSHED, init), Run(FLUSHED, tr);
      ReasonStep(before, e);
      if e.PauseFor? && e.action.Some? {
        assert LastNamed(FLUSHED, tr, |init|);
      } else if after.reason.Some? && after.reason.value.action.Some? {
        var i :| LastNamed(FLUSHED, init, i);
        assert LastNamed(FLUSHED, tr, i);
      }
    }
  }

  /** The run still ends under a recorded pause: idle, but PAUSADO with the same reason. */
  lemma CompletionKeepsThePause(tr: seq<Event>, e: Event)
    requires Run(FLUSHED, tr).reason.Some? && Step(Run(FLUSHED, tr), e).1 == Won(true)
    ensures var t := Step(Run(FLUSHED, tr), e).0;
      t.phase == Idle && t.ended && t.mode == Pausado && t.reason == Run(FLUSHED, tr).reason
  {
    ReasonAlwaysMeans(tr);
  }
}
