/**
 The collection-engine run lifecycle with atomic verbs: the Redis keys and the runs_history
 rows as one value, one function a verb (the specification), and a store that updates its
 keys in place one assignment at a time and is proved against those functions.
 */
module Engine {
  import opened Common

  type RunId = string

  /** Absent or corrupt state reads as idle. */
  datatype RunState = Idle | Running | Stopping

  /** Absent or corrupt mode reads as LIGADO. */
  datatype Mode = Ligado | Pausado | Desligado

  /** runs_history.status: "running", "concluido", "parcial", "falha". */
  datatype Status = InProgress | Concluido | Parcial | Falha

  datatype Row = Row(
    ufs: seq<string>, source: string, depth: string, lane: string, total: int,
    status: Status, dispatched: int, endedAt: Option<int>)

  type Rows = map<RunId, Row>

  datatype Pause = Pause(reason: string, provider: Option<string>, action: Option<string>, at: int)

  datatype State = State(
    phase: RunState,
    mode: Mode,
    runId: Option<RunId>,
    enabled: bool,
    inflight: int,
    dispatchDone: bool,
    failed: int,
    ended: bool,
    done: int,
    total: int,
    currentUf: Option<string>,
    depth: Option<string>,
    source: Option<string>,
    reason: Option<Pause>,
    durableMode: Option<Mode>,
    rows: Rows)

  datatype Request = Request(
    action: string, depth: string, source: string, ufs: seq<string>, lane: string,
    validSources: Option<set<string>>, unitsTotal: Option<int>)

  datatype StartOutcome = Started(id: RunId) | AlreadyActive | InvalidDepth | InvalidSource

  const VALID_DEPTHS: set<string> := {"nascente", "nascente_rio", "nascente_rio_mar"}
  const VALID_SOURCES: set<string> := {"default", "tripadvisor"}

  const FLUSHED: State := State(
    Idle, Ligado, None, false, 0, false, 0, false, 0, 0, None, None, None, None, None, map[])

  predicate ValidRequest(r: Request) {
    r.action == "sweep" ==>
      r.depth in VALID_DEPTHS && r.source in AllowedSources(r)
  }

  function AllowedSources(r: Request): set<string> {
    if r.validSources.Some? then r.validSources.value else VALID_SOURCES
  }

  /** The current run's id if `rid` addresses it (None addresses whatever run is current). */
  function Current(s: State, rid: Option<RunId>): Option<RunId> {
    if s.runId.None? || (rid.Some? && rid != s.runId) then None else s.runId
  }

  /** The best-effort row write: no session or no row writes nothing. */
  function Finalized(rows: Rows, db: bool, id: RunId, status: Status, dispatched: int, now: int): Rows {
    if db && id in rows
    then rows[id := rows[id].(status := status, dispatched := dispatched, endedAt := Some(now))]
    else rows
  }

  function WithMode(s: State, mode: Mode, db: bool): State {
    var s1 := s.(mode := mode, durableMode := if db then Some(mode) else s.durableMode);
    match mode
    case Ligado => s1.(reason := None)
    case Pausado => s1
    case Desligado => s1.(reason := None, phase := Idle, currentUf := None, enabled := false, inflight := 0)
  }

  function NewRow(r: Request): Row {
    Row(r.ufs, r.source, r.depth, r.lane, PlanSize(r), InProgress, 0, None)
  }

  function PlanSize(r: Request): int {
    if r.unitsTotal.Some? then r.unitsTotal.value else |r.ufs|
  }

  /** What start resets before it validates depth and source. */
  function Reset(s: State, r: Request, db: bool, now: int): State {
    s.(rows := if s.runId.Some? && !s.ended
               then Finalized(s.rows, db, s.runId.value, Parcial, s.done, now) else s.rows,
       phase := Running, enabled := true, total := PlanSize(r), done := 0, currentUf := None,
       ended := false, inflight := 0, failed := 0, dispatchDone := false)
  }

  /** `id` is the uuid the call draws. A duplicate id fails the insert, which rolls back the
      durable mode with it; the run itself still starts (the row is best-effort). */
  function Start(s: State, r: Request, id: RunId, db: bool, now: int): (State, StartOutcome) {
    if s.phase != Idle then (s, AlreadyActive)
    else
      var s1 := Reset(s, r, db, now);
      if r.action == "sweep" && r.depth !in VALID_DEPTHS then (s1, InvalidDepth)
      else
        var s2 := if r.action == "sweep" then s1.(depth := Some(r.depth)) else s1;
        if r.action == "sweep" && r.source !in AllowedSources(r) then (s2, InvalidSource)
        else
          var s3 := if r.action == "sweep" then s2.(source := Some(r.source)) else s2;
          var inserted := db && id !in s3.rows;
          (WithMode(s3, Ligado, inserted).(
             runId := Some(id),
             rows := if inserted then s3.rows[id := NewRow(r)] else s3.rows),
           Started(id))
  }

  function Abort(s: State, id: RunId, db: bool, now: int): State {
    (if Current(s, Some(id)).Some?
     then s.(phase := Idle, currentUf := None, enabled := false, runId := None) else s)
    .(rows := Finalized(s.rows, db, id, Falha, 0, now))
  }

  function RequestStop(s: State): (State, bool) {
    if s.phase != Running then (s, false) else (s.(phase := Stopping), true)
  }

  function ClaimProducer(s: State, rid: Option<RunId>): (State, Option<RunId>) {
    if Current(s, rid).None? || s.ended then (s, None)
    else (s.(inflight := s.inflight + 1), s.runId)
  }

  function Progress(s: State, rid: Option<RunId>, n: int, uf: Option<string>): State {
    if Current(s, rid).None? || s.ended then s
    else s.(currentUf := if uf.Some? then uf else s.currentUf, done := s.done + n)
  }

  predicate Interrupted(s: State) {
    s.phase != Running || s.mode != Ligado || s.done < s.total || s.failed > 0
  }

  /** The winner's effect: motor off, PAUSADO and its reason kept, the row finalized. */
  function Completed(s: State, id: RunId, db: bool, now: int): State {
    s.(ended := true, phase := Idle, currentUf := None, enabled := false,
       mode := if s.reason.None? then Desligado else s.mode,
       rows := Finalized(s.rows, db, id, if Interrupted(s) then Parcial else Concluido, s.done, now))
  }

  function MaybeComplete(s: State, id: RunId, db: bool, now: int): (State, bool) {
    if s.inflight > 0 || !s.dispatchDone || s.ended then (s, false)
    else (Completed(s, id, db, now), true)
  }

  function ProducerDone(s: State, rid: Option<RunId>, failed: bool, db: bool, now: int): (State, bool) {
    if rid.None? || Current(s, rid).None? then (s, false)
    else
      MaybeComplete(
        s.(failed := if failed then s.failed + 1 else s.failed, inflight := Max(0, s.inflight - 1)),
        s.runId.value, db, now)
  }

  function DispatchFinished(s: State, rid: Option<RunId>, db: bool, now: int): (State, bool) {
    if Current(s, rid).None? then (s, false)
    else MaybeComplete(s.(dispatchDone := true), s.runId.value, db, now)
  }

  function PauseWithReason(
    s: State, reason: string, provider: Option<string>, action: Option<string>, at: int): State
  {
    var kept := if action.None? && s.reason.Some? then s.reason.value.action else action;
    WithMode(s.(reason := Some(Pause(reason, provider, kept, at))), Pausado, false)
  }

  /**
   The Redis keys and the runs_history table, each verb a sequence of in-place updates.
   */
  class Store {
    var phase: RunState
    var mode: Mode
    var runId: Option<RunId>
    var enabled: bool
    var inflight: int
    var dispatchDone: bool
    var failed: int
    var lastRunEnded: bool
    var ufsDone: int
    var ufsTotal: int
    var currentUf: Option<string>
    var depth: Option<string>
    var source: Option<string>
    var pauseReason: Option<Pause>
    var durableMode: Option<Mode>
    var rows: Rows

    ghost function View(): State
      reads this
    {
      State(phase, mode, runId, enabled, inflight, dispatchDone, failed, lastRunEnded, ufsDone,
            ufsTotal, currentUf, depth, source, pauseReason, durableMode, rows)
    }

    /** A flushed Redis: idle, LIGADO, no run. */
    constructor ()
      ensures View() == FLUSHED
    {
      phase, mode, runId, enabled := Idle, Ligado, None, false;
      inflight, dispatchDone, failed, lastRunEnded := 0, false, 0, false;
      ufsDone, ufsTotal, currentUf, depth, source := 0, 0, None, None, None;
      pauseReason, durableMode, rows := None, None, map[];
    }

    method CurrentRun(rid: Option<RunId>) returns (r: Option<RunId>)
      ensures r == Current(View(), rid)
    {
      if runId.None? || (rid.Some? && rid != runId) {
        return None;
      }
      return runId;
    }

    method FinalizeRow(db: bool, id: RunId, status: Status, dispatched: int, now: int)
      modifies this`rows
      ensures View() == old(View()).(rows := Finalized(old(rows), db, id, status, dispatched, now))
    {
      if db && id in rows {
        var row := rows[id];
        row := row.(endedAt := Some(now));
        row := row.(dispatched := dispatched);
        row := row.(status := status);
        rows := rows[id := row];
      }
    }

    method MarkIdle()
      modifies this`phase, this`currentUf
      ensures phase == Idle && currentUf == None
    {
      phase := Idle;
      currentUf := None;
    }

    method SetMode(newMode: Mode, db: bool)
      modifies this
      ensures View() == WithMode(old(View()), newMode, db)
    {
      mode := newMode;
      if newMode == Desligado {
        MarkIdle();
        enabled := false;
        inflight := 0;
      }
      if newMode == Ligado || newMode == Desligado {
        pauseReason := None;
      }
      if db {
        durableMode := Some(newMode);
      }
    }

    /** The first half of start: close a run forced idle, then reset every lifecycle key. */
    method ResetRun(r: Request, db: bool, now: int)
      modifies this
      ensures View() == Reset(old(View()), r, db, now)
    {
      hide Finalized, PlanSize;
      if runId.Some? && !lastRunEnded {
        FinalizeRow(db, runId.value, Parcial, ufsDone, now);
      }
      ResetCounters(r);
    }

    method ResetCounters(r: Request)
      modifies this`phase, this`enabled, this`ufsTotal, this`ufsDone, this`currentUf, this`lastRunEnded,
        this`inflight, this`failed, this`dispatchDone
      ensures phase == Running && enabled && ufsTotal == PlanSize(r) && ufsDone == 0 && currentUf.None?
      ensures !lastRunEnded && inflight == 0 && failed == 0 && !dispatchDone
    {
      phase := Running;
      enabled := true;
      ufsTotal := PlanSize(r);
      ufsDone := 0;
      currentUf := None;
      lastRunEnded := false;
      inflight := 0;
      failed := 0;
      dispatchDone := false;
    }

    /** The second half: LIGADO, the generation token and the best-effort row. */
    method OpenRun(r: Request, id: RunId, db: bool)
      modifies this
      ensures var inserted := db && id !in old(rows);
        View() == WithMode(old(View()), Ligado, inserted).(
          runId := Some(id), rows := if inserted then old(rows)[id := NewRow(r)] else old(rows))
    {
      var before := durableMode;
      SetMode(Ligado, db);
      runId := Some(id);
      if db {
        if id in rows {
          durableMode := before;  // the failed insert rolls the whole transaction back
        } else {
          rows := rows[id := NewRow(r)];
        }
      }
    }

    method StartRun(r: Request, id: RunId, db: bool, now: int) returns (out: StartOutcome)
      modifies this
      ensures (View(), out) == Start(old(View()), r, id, db, now)
    {
      if phase == Running || phase == Stopping {
        return AlreadyActive;
      }
      ResetRun(r, db, now);
      if r.action == "sweep" {
        if r.depth !in VALID_DEPTHS {
          return InvalidDepth;
        }
        depth := Some(r.depth);
        if r.source !in AllowedSources(r) {
          return InvalidSource;
        }
        source := Some(r.source);
      }
      OpenRun(r, id, db);
      return Started(id);
    }

    method AbortRun(id: RunId, db: bool, now: int)
      modifies this
      ensures View() == Abort(old(View()), id, db, now)
    {
      var current := CurrentRun(Some(id));
      if current.Some? {
        MarkIdle();
        enabled := false;
        runId := None;
      }
      FinalizeRow(db, id, Falha, 0, now);
    }

    method Stop() returns (asked: bool)
      modifies this`phase
      ensures (View(), asked) == RequestStop(old(View()))
    {
      if phase != Running {
        return false;
      }
      phase := Stopping;
      return true;
    }

    method Claim(rid: Option<RunId>) returns (claimed: Option<RunId>)
      modifies this`inflight
      ensures (View(), claimed) == ClaimProducer(old(View()), rid)
    {
      var current := CurrentRun(rid);
      if current.None? || lastRunEnded {
        return None;
      }
      inflight := inflight + 1;
      return current;
    }

    method RecordProgress(rid: Option<RunId>, n: int, uf: Option<string>)
      modifies this`currentUf, this`ufsDone
      ensures View() == Progress(old(View()), rid, n, uf)
    {
      var current := CurrentRun(rid);
      if current.None? || lastRunEnded {
        return;
      }
      if uf.Some? {
        currentUf := uf;
      }
      ufsDone := ufsDone + n;
    }

    method TryComplete(id: RunId, db: bool, now: int) returns (won: bool)
      modifies this
      ensures (View(), won) == MaybeComplete(old(View()), id, db, now)
    {
      if inflight > 0 || !dispatchDone {
        return false;
      }
      var done, total := ufsDone, ufsTotal;
      var interrupted := phase != Running || mode != Ligado || done < total || failed > 0;
      var was := lastRunEnded;
      lastRunEnded := true;
      if was {
        return false;
      }
      MarkIdle();
      enabled := false;
      if pauseReason == None {
        mode := Desligado;
      }
      FinalizeRow(db, id, if interrupted then Parcial else Concluido, done, now);
      return true;
    }

    method Done(rid: Option<RunId>, didFail: bool, db: bool, now: int) returns (won: bool)
      modifies this
      ensures (View(), won) == ProducerDone(old(View()), rid, didFail, db, now)
    {
      if rid.None? {
        return false;
      }
      var current := CurrentRun(rid);
      if current.None? {
        return false;
      }
      if didFail {
        failed := failed + 1;
      }
      inflight := inflight - 1;
      if inflight < 0 {
        inflight := 0;
      }
      won := TryComplete(current.value, db, now);
    }

    method FinishDispatch(rid: Option<RunId>, db: bool, now: int) returns (won: bool)
      modifies this
      ensures (View(), won) == DispatchFinished(old(View()), rid, db, now)
    {
      var current := CurrentRun(rid);
      if current.None? {
        return false;
      }
      dispatchDone := true;
      won := TryComplete(current.value, db, now);
    }

    method PauseMotor(reason: string, provider: Option<string>, action: Option<string>, at: int)
      modifies this
      ensures View() == PauseWithReason(old(View()), reason, provider, action, at)
    {
      var kept := action;
      if action.None? && pauseReason.Some? {
        kept := pauseReason.value.action;
      }
      pauseReason := Some(Pause(reason, provider, kept, at));
      SetMode(Pausado, false);
    }
  }
}
