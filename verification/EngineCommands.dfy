/**
 One generation of the engine with every Redis command its own atomic step: a program counter
 per participant, any number of producers, and operators that stop, pause and resume at any
 moment. The keys are the Engine model's; the steps are the single commands its verbs issue.
 */
module EngineCommands {
  import opened Common
  import opened Engine

  /** 0 is the orchestrator; every other number is a producer. */
  type Pid = nat

  const ORCHESTRATOR: Pid := 0

  /** The next command of the verb a participant is in, with what the verb has read so far. */
  datatype PC =
    | Working                                   // between verbs
    | Claiming(claim: ClaimStep)                // claim_producer
    | Progressing(progress: ProgressStep)       // progress
    | Reporting(report: ReportStep)             // producer_done, up to its DECR
    | Clamping                                  // producer_done: SET inflight 0 after a DECR below zero
    | Closing                                   // dispatch_finished: SET dispatch_done
    | ReadInflight | ReadDispatch               // _maybe_complete: its two guard reads, in this order
    | Deciding(read: DecideStep)                // _maybe_complete: the reads that decide the status
    | Winning(win: WinStep, done: int, interrupted: bool)  // it won the GETSET: its writes
    | Returned(won: bool)
    | Ignored                                   // producer_done found no current run
    | Aborting(abort: AbortStep)                // abort

  datatype ClaimStep = GetEnded | IncrInflight
  datatype ProgressStep = GetEndedFor(n: nat, uf: Option<string>) | SetUf(n: nat, name: string) | IncrDone(n: nat)
  datatype ReportStep = IncrFailed | DecrInflight
  datatype DecideStep =
    | GetDone | GetTotal(done: int) | GetState(done: int, total: int) | GetMode(done: int, total: int)
    | GetFailed(done: int, total: int) | GetSetEnded(done: int, interrupted: bool)
  datatype WinStep = SetIdle | DelUf | SetEnabled | GetReason | SetModeOff | WriteRow
  datatype AbortStep = AbortIdle | AbortUf | AbortEnabled | AbortRunId | AbortRow | Aborted

  datatype World = World(keys: State, run: RunId, pcs: map<Pid, PC>, failedReports: set<Pid>)

  /** Begin* is a verb's first command (GET run_id); Advance the next command of the verb in
      progress; Admit the INCR of a claim, which puts `child` in flight; Op* are commands of
      operators, who never switch the motor off (DESLIGADO). */
  datatype Label =
    | BeginClaim(p: Pid) | Admit(p: Pid, child: Pid)
    | BeginProgress(p: Pid, n: nat, uf: Option<string>)
    | BeginDone(p: Pid, failed: bool)
    | BeginFinish | BeginAbort
    | Advance(p: Pid, now: int)
    | OpStop | OpMode(paused: bool) | OpReason(reason: Option<Pause>)

  predicate HasRun(w: World) {
    w.keys.runId == Some(w.run)
  }

  predicate Is(w: World, p: Pid, pc: PC) {
    p in w.pcs && w.pcs[p] == pc
  }

  /** Participant `p` moves to `pc` and the keys become `keys`. */
  function Moved(w: World, p: Pid, pc: PC, keys: State): World {
    w.(pcs := w.pcs[p := pc], keys := keys)
  }

  /** Where the next command of `pc` leads, given the keys it reads. */
  function NextPC(pc: PC, k: State): PC {
    match pc
    case Claiming(GetEnded) => if k.ended then Working else Claiming(IncrInflight)
    case Progressing(GetEndedFor(n, uf)) =>
      if k.ended then Working
      else Progressing(if uf.Some? then SetUf(n, uf.value) else IncrDone(n))
    case Progressing(SetUf(n, name)) => Progressing(IncrDone(n))
    case Progressing(IncrDone(n)) => Working
    case Reporting(IncrFailed) => Reporting(DecrInflight)
    case Reporting(DecrInflight) => if k.inflight - 1 < 0 then Clamping else ReadInflight
    case Clamping => ReadInflight
    case Closing => ReadInflight
    case ReadInflight => if k.inflight > 0 then Returned(false) else ReadDispatch
    case ReadDispatch => if k.dispatchDone then Deciding(GetDone) else Returned(false)
    case Deciding(GetDone) => Deciding(GetTotal(k.done))
    case Deciding(GetTotal(done)) => Deciding(GetState(done, k.total))
    case Deciding(GetState(done, total)) =>
      Deciding(if k.phase != Running then GetSetEnded(done, true) else GetMode(done, total))
    case Deciding(GetMode(done, total)) =>
      Deciding(if k.mode != Ligado || done < total then GetSetEnded(done, true) else GetFailed(done, total))
    case Deciding(GetFailed(done, total)) => Deciding(GetSetEnded(done, k.failed > 0))
    case Deciding(GetSetEnded(done, interrupted)) =>
      if k.ended then Returned(false) else Winning(SetIdle, done, interrupted)
    case Winning(SetIdle, done, interrupted) => Winning(DelUf, done, interrupted)
    case Winning(DelUf, done, interrupted) => Winning(SetEnabled, done, interrupted)
    case Winning(SetEnabled, done, interrupted) => Winning(GetReason, done, interrupted)
    case Winning(GetReason, done, interrupted) =>
      Winning(if k.reason.None? then SetModeOff else WriteRow, done, interrupted)
    case Winning(SetModeOff, done, interrupted) => Winning(WriteRow, done, interrupted)
    case Winning(WriteRow, done, interrupted) => Returned(true)
    case Aborting(AbortIdle) => Aborting(AbortUf)
    case Aborting(AbortUf) => Aborting(AbortEnabled)
    case Aborting(AbortEnabled) => Aborting(AbortRunId)
    case Aborting(AbortRunId) => Aborting(AbortRow)
    case Aborting(AbortRow) => Aborting(Aborted)
    case _ => pc
  }

  /** What the next command of `pc` writes. */
  function NextKeys(pc: PC, k: State, run: RunId, now: int): State {
    match pc
    case Progressing(SetUf(n, name)) => k.(currentUf := Some(name))
    case Progressing(IncrDone(n)) => k.(done := k.done + n)
    case Reporting(IncrFailed) => k.(failed := k.failed + 1)
    case Reporting(DecrInflight) => k.(inflight := k.inflight - 1)
    case Clamping => k.(inflight := 0)
    case Closing => k.(dispatchDone := true)
    case Deciding(GetSetEnded(_, _)) => k.(ended := true)
    case Winning(SetIdle, _, _) => k.(phase := Idle)
    case Winning(DelUf, _, _) => k.(currentUf := None)
    case Winning(SetEnabled, _, _) => k.(enabled := false)
    case Winning(SetModeOff, _, _) => k.(mode := Desligado)
    case Winning(WriteRow, done, interrupted) =>
      k.(rows := Finalized(k.rows, true, run, if interrupted then Parcial else Concluido, done, now))
    case Aborting(AbortIdle) => k.(phase := Idle)
    case Aborting(AbortUf) => k.(currentUf := None)
    case Aborting(AbortEnabled) => k.(enabled := false)
    case Aborting(AbortRunId) => k.(runId := None)
    case Aborting(AbortRow) => k.(rows := Finalized(k.rows, true, run, Falha, 0, now))
    case _ => k
  }

  function Advanced(w: World, p: Pid, now: int): World
    requires p in w.pcs
  {
    Moved(w, p, NextPC(w.pcs[p], w.keys), NextKeys(w.pcs[p], w.keys, w.run, now))
  }

  /** The world after one command; a label that does not apply changes nothing. */
  function Next(w: World, l: Label): World {
    match l
    case BeginClaim(p) =>
      if Is(w, p, Working) && HasRun(w) then Moved(w, p, Claiming(GetEnded), w.keys) else w
    case Admit(p, child) =>
      if Is(w, p, Claiming(IncrInflight)) && child !in w.pcs
      then w.(pcs := w.pcs[p := Working][child := Working], keys := w.keys.(inflight := w.keys.inflight + 1))
      else w
    case BeginProgress(p, n, uf) =>
      if Is(w, p, Working) && HasRun(w) then Moved(w, p, Progressing(GetEndedFor(n, uf)), w.keys) else w
    case BeginDone(p, failed) =>
      if !Is(w, p, Working) || p == ORCHESTRATOR then w
      else if !HasRun(w) then Moved(w, p, Ignored, w.keys)
      else if failed then
        Moved(w, p, Reporting(IncrFailed), w.keys).(failedReports := w.failedReports + {p})
      else Moved(w, p, Reporting(DecrInflight), w.keys)
    case BeginFinish =>
      if !Is(w, ORCHESTRATOR, Working) then w
      else Moved(w, ORCHESTRATOR, if HasRun(w) then Closing else Returned(false), w.keys)
    case BeginAbort =>
      if !Is(w, ORCHESTRATOR, Working) then w
      else Moved(w, ORCHESTRATOR, Aborting(if HasRun(w) then AbortIdle else AbortRow), w.keys)
    case Advance(p, now) => if p in w.pcs then Advanced(w, p, now) else w
    case OpStop => w.(keys := w.keys.(phase := Stopping))
    case OpMode(paused) => w.(keys := w.keys.(mode := if paused then Pausado else Ligado))
    case OpReason(reason) => w.(keys := w.keys.(reason := reason))
  }

  /** The world right after an (atomic) start: the orchestrator is dispatching. */
  function Opened(before: State, req: Request, id: RunId, now: int): World {
    World(Start(before, req, id, true, now).0, id, map[ORCHESTRATOR := Working], {})
  }

  predicate FreshStart(before: State, req: Request, id: RunId) {
    before.phase == Idle && ValidRequest(req) && id !in before.rows
  }

  function Run(w: World, tr: seq<Label>): World {
    if tr == [] then w else Next(Run(w, tr[..|tr| - 1]), tr[|tr| - 1])
  }

  lemma {:induction false} RunConcat(w: World, a: seq<Label>, b: seq<Label>)
    ensures Run(w, a + b) == Run(Run(w, a), b)
  {
    if b == [] {
      assert a + b == a;
    } else {
      var init, last := b[..|b| - 1], b[|b| - 1];
      assert (a + b)[..|a + b| - 1] == a + init;
      RunConcat(w, a, init);
    }
  }

  // ---- Who is where ---------------------------------------------------------------------

  /** A claimed producer that has not issued its DECR. */
  predicate Flying(pc: PC) {
    pc.Working? || pc.Claiming? || pc.Progressing? || pc.Reporting? || pc.Ignored?
  }

  /** A claimed producer that has not called producer_done yet. */
  predicate Unreported(pc: PC) {
    pc.Working? || pc.Claiming? || pc.Progressing?
  }

  /** Won the GETSET. */
  predicate Winner(pc: PC) {
    pc.Winning? || pc == Returned(true)
  }

  /** Inside _maybe_complete, or through it. */
  predicate Completing(pc: PC) {
    pc.ReadInflight? || pc.ReadDispatch? || pc.Deciding? || pc.Winning? || pc.Returned?
  }

  /** The orchestrator before its SET dispatch_done. */
  predicate Dispatching(pc: PC) {
    pc.Working? || pc.Claiming? || pc.Progressing? || pc.Closing?
  }

  predicate Dropped(pc: PC) {
    pc == Aborting(AbortRow) || pc == Aborting(Aborted)
  }

  /** Claimed but not decremented. */
  ghost function InFlight(pcs: map<Pid, PC>): set<Pid> {
    set p | p in pcs && p != ORCHESTRATOR && Flying(pcs[p])
  }

  /** Reported failed, but the INCR of the failure counter is still to come. */
  ghost function Failing(pcs: map<Pid, PC>): set<Pid> {
    set p | p in pcs && pcs[p] == Reporting(IncrFailed)
  }

  // ---- The invariants of every run ------------------------------------------------------

  /** The in-flight key is exactly the number of claimed producers that did not decrement. */
  ghost predicate Counted(w: World) {
    w.keys.inflight == |InFlight(w.pcs)|
  }

  /** The failure counter lags the reports by the INCRs still to come. */
  ghost predicate FailuresCounted(w: World) {
    && Failing(w.pcs) <= w.failedReports
    && (forall p | p in w.failedReports :: p in w.pcs && !Unreported(w.pcs[p]))
    && w.keys.failed == |w.failedReports - Failing(w.pcs)|
  }

  /** Who may be where; dispatch_done is set exactly when the orchestrator is past it; the run
      is current until an abort clears it; nobody ever has to clamp. */
  ghost predicate Shaped(w: World) {
    && ORCHESTRATOR in w.pcs
    && (var o := w.pcs[ORCHESTRATOR]; Dispatching(o) || Completing(o) || o.Aborting?)
    && (forall p | p in w.pcs && p != ORCHESTRATOR :: Flying(w.pcs[p]) || Completing(w.pcs[p]))
    && (w.keys.dispatchDone <==> Completing(w.pcs[ORCHESTRATOR]))
    && (forall p | p in w.pcs && (w.pcs[p].Deciding? || Winner(w.pcs[p])) :: w.keys.dispatchDone)
    && (HasRun(w) <==> !Dropped(w.pcs[ORCHESTRATOR]))
  }

  /** At most one verb wins, and one has won exactly when the run is marked ended. */
  ghost predicate SingleWinner(w: World) {
    && (w.keys.ended <==> exists p :: p in w.pcs && Winner(w.pcs[p]))
    && (forall p, q | p in w.pcs && q in w.pcs && Winner(w.pcs[p]) && Winner(w.pcs[q]) :: p == q)
  }

  /** The row is running until the winner or the abort writes it. */
  ghost predicate RowTold(w: World) {
    && w.run in w.keys.rows
    && var row := w.keys.rows[w.run];
    && (row.status != InProgress ==>
          exists p :: p in w.pcs && (w.pcs[p] == Returned(true) || w.pcs[p] == Aborting(Aborted)))
    && (forall p | p in w.pcs && w.pcs[p] == Returned(true) :: row.status == Concluido || row.status == Parcial)
    && (Is(w, ORCHESTRATOR, Aborting(Aborted)) ==> row.status == Falha)
    && (row.status == Concluido ==> w.keys.total <= row.dispatched <= w.keys.done)
  }

  /** If nothing is in flight after dispatch and the run has not ended, somebody is on its way
      to end it. */
  ghost predicate SomebodyWillSee(w: World) {
    w.keys.dispatchDone && w.keys.inflight == 0 && !w.keys.ended ==>
      exists p :: p in w.pcs && OnItsWay(w.pcs[p])
  }

  predicate OnItsWay(pc: PC) {
    pc.ReadInflight? || pc.ReadDispatch? || pc.Deciding?
  }

  /** The verb has read the number of units done, and this is what it read. */
  predicate HasUnits(pc: PC) {
    pc.Winning? || (pc.Deciding? && !pc.read.GetDone?)
  }

  function Units(pc: PC): int
    requires HasUnits(pc)
  {
    if pc.Winning? then pc.done else pc.read.done
  }

  predicate IsGetSet(pc: PC) {
    pc.Deciding? && pc.read.GetSetEnded?
  }

  predicate ReadPlan(pc: PC) {
    pc.Deciding? && (pc.read.GetState? || pc.read.GetMode? || pc.read.GetFailed?)
  }

  /** Decided that nothing interrupted the run. */
  predicate Clear(pc: PC) {
    (IsGetSet(pc) && !pc.read.interrupted) || (pc.Winning? && !pc.interrupted)
  }

  /** What a verb has read is what the keys allow: the plan never changes, the units only grow,
      and "not interrupted" means the plan was complete. */
  predicate Bounded(pc: PC, k: State) {
    && (HasUnits(pc) ==> Units(pc) <= k.done)
    && (ReadPlan(pc) ==> pc.read.total == k.total)
    && (Clear(pc) || (pc.Deciding? && pc.read.GetFailed?) ==> k.total <= Units(pc))
  }

  ghost predicate AllBounded(w: World) {
    forall p | p in w.pcs :: Bounded(w.pcs[p], w.keys)
  }

  ghost predicate Inv(w: World) {
    && Shaped(w) && Counted(w) && FailuresCounted(w) && SingleWinner(w) && RowTold(w)
    && SomebodyWillSee(w) && AllBounded(w)
  }

  // ---- One command, seen as a change of one program counter and of the counters ----------

  /** Which keys the command at `pc` may have changed, and how. */
  predicate Writes(pc: PC, k: State, k': State) {
    && k'.inflight == (if pc == Reporting(DecrInflight) then k.inflight - 1 else if pc.Clamping? then 0 else k.inflight)
    && k'.failed == (if pc == Reporting(IncrFailed) then k.failed + 1 else k.failed)
    && k'.dispatchDone == (k.dispatchDone || pc.Closing?)
    && k'.ended == (k.ended || IsGetSet(pc))
    && k'.runId == (if pc == Aborting(AbortRunId) then None else k.runId)
    && k'.total == k.total && k'.done >= k.done
    && (k'.done != k.done ==> pc.Progressing?)
    && (k'.phase == Running ==> k.phase == Running)
    && (k'.rows == k.rows || (pc.Winning? && pc.win.WriteRow?) || pc == Aborting(AbortRow))
  }

  /** Where the command at `pc` may lead. */
  predicate Moves(pc: PC, k: State, pc': PC) {
    && (Flying(pc') <==> Flying(pc) && pc != Reporting(DecrInflight))
    && (pc == Reporting(DecrInflight) ==> pc' == if k.inflight >= 1 then ReadInflight else Clamping)
    && pc' != Reporting(IncrFailed) && (Unreported(pc') ==> Unreported(pc))
    && (pc.Closing? ==> pc'.ReadInflight?)
    && (Dispatching(pc) && !pc.Closing? ==> pc'.Working? || pc'.Claiming? || pc'.Progressing?)
    && (Completing(pc) ==> Completing(pc'))
    && (pc.Aborting? <==> pc'.Aborting?)
    && (Dropped(pc') <==> Dropped(pc) || pc == Aborting(AbortRunId))
    && (pc'.Deciding? ==> pc.Deciding? || (pc.ReadDispatch? && k.dispatchDone))
    && (Winner(pc') <==> Winner(pc) || (IsGetSet(pc) && !k.ended))
    && (pc' == Returned(true) ==> pc == pc' || (pc.Winning? && pc.win.WriteRow?))
    && (pc.Ignored? || pc.Returned? || pc.Working? ==> pc' == pc)
  }

  lemma CommandWrites(pc: PC, k: State, run: RunId, now: int)
    ensures Writes(pc, k, NextKeys(pc, k, run, now))
  {
    if pc.Winning? || pc.Aborting? {
      EndingWrites(pc, k, run, now);
      hide NextKeys, Writes;
    }
    hide Finalized;
  }

  lemma EndingWrites(pc: PC, k: State, run: RunId, now: int)
    requires pc.Winning? || pc.Aborting?
    ensures Writes(pc, k, NextKeys(pc, k, run, now))
  {
    hide Finalized;
  }

  lemma CommandMoves(pc: PC, k: State)
    ensures Moves(pc, k, NextPC(pc, k))
  {
  }

  lemma InFlightUpdate(pcs: map<Pid, PC>, p: Pid, pc: PC)
    ensures InFlight(pcs[p := pc]) ==
      if p != ORCHESTRATOR && Flying(pc) then InFlight(pcs) + {p} else InFlight(pcs) - {p}
    ensures p in InFlight(pcs) <==> p != ORCHESTRATOR && p in pcs && Flying(pcs[p])
    ensures |InFlight(pcs) + {p}| == |InFlight(pcs)| + if p in InFlight(pcs) then 0 else 1
    ensures |InFlight(pcs) - {p}| == |InFlight(pcs)| - if p in InFlight(pcs) then 1 else 0
  {
    if p in InFlight(pcs) {
      assert InFlight(pcs) + {p} == InFlight(pcs);
    } else {
      assert InFlight(pcs) - {p} == InFlight(pcs);
    }
  }

  lemma CountedMove(w: World, p: Pid, pc': PC, k': State)
    requires Counted(w) && Shaped(w) && p in w.pcs
    requires Writes(w.pcs[p], w.keys, k') && Moves(w.pcs[p], w.keys, pc')
    ensures Counted(Moved(w, p, pc', k'))
  {
    InFlightUpdate(w.pcs, p, pc');
  }

  lemma ShapedMove(w: World, p: Pid, pc': PC, k': State)
    requires Counted(w) && Shaped(w) && p in w.pcs
    requires Writes(w.pcs[p], w.keys, k') && Moves(w.pcs[p], w.keys, pc')
    ensures Shaped(Moved(w, p, pc', k'))
  {
    if w.pcs[p] == Reporting(DecrInflight) {
      assert p in InFlight(w.pcs);
    }
  }

  lemma FailingUpdate(pcs: map<Pid, PC>, p: Pid, pc: PC)
    ensures Failing(pcs[p := pc]) == if pc == Reporting(IncrFailed) then Failing(pcs) + {p} else Failing(pcs) - {p}
    ensures p in Failing(pcs) <==> p in pcs && pcs[p] == Reporting(IncrFailed)
  {
  }

  /** The reports counted once `p` leaves the reporting step. */
  lemma FailuresMove(w: World, p: Pid, pc': PC, k': State)
    requires FailuresCounted(w) && p in w.pcs
    requires k'.failed == if w.pcs[p] == Reporting(IncrFailed) then w.keys.failed + 1 else w.keys.failed
    requires pc' != Reporting(IncrFailed) && (Unreported(pc') ==> Unreported(w.pcs[p]))
    ensures FailuresCounted(Moved(w, p, pc', k'))
  {
    FailingUpdate(w.pcs, p, pc');
    var counted, counted' := w.failedReports - Failing(w.pcs), w.failedReports - (Failing(w.pcs) - {p});
    if p in Failing(w.pcs) {
      CardAdd(counted, p, counted');
    } else {
      assert counted' == counted;
    }
  }

  lemma WinnerMove(w: World, p: Pid, pc': PC, k': State)
    requires Shaped(w) && SingleWinner(w) && p in w.pcs
    requires Writes(w.pcs[p], w.keys, k') && Moves(w.pcs[p], w.keys, pc')
    ensures SingleWinner(Moved(w, p, pc', k'))
  {
    var w' := Moved(w, p, pc', k');
    forall q | q in w.pcs && q != p ensures w'.pcs[q] == w.pcs[q] {}
    if w.keys.ended {
      var q :| q in w.pcs && Winner(w.pcs[q]);
      assert Winner(w'.pcs[q]);
    } else if IsGetSet(w.pcs[p]) {
      assert Winner(w'.pcs[p]);
    }
  }

  lemma PendingMove(w: World, p: Pid, pc': PC, k': State)
    requires Shaped(w) && Counted(w) && SomebodyWillSee(w) && p in w.pcs
    requires Writes(w.pcs[p], w.keys, k') && Moves(w.pcs[p], w.keys, pc')
    requires OnItsWay(w.pcs[p]) && w.keys.dispatchDone && w.keys.inflight == 0 && !IsGetSet(w.pcs[p]) ==> OnItsWay(pc')
    ensures SomebodyWillSee(Moved(w, p, pc', k'))
  {
    var w' := Moved(w, p, pc', k');
    if k'.dispatchDone && k'.inflight == 0 && !k'.ended {
      if w.keys.dispatchDone && w.keys.inflight == 0 {
        var q :| q in w.pcs && OnItsWay(w.pcs[q]);
        assert OnItsWay(w'.pcs[q]);
      } else {
        if w.pcs[p] == Reporting(DecrInflight) { InFlightUpdate(w.pcs, p, pc'); }
        assert OnItsWay(w'.pcs[p]);
      }
    }
  }

  lemma BoundedMove(w: World, p: Pid, now: int)
    requires AllBounded(w) && p in w.pcs
    ensures AllBounded(Advanced(w, p, now))
  {
    var pc, w' := w.pcs[p], Advanced(w, p, now);
    BoundedCommand(pc, w.keys, w'.keys);
    CommandWrites(pc, w.keys, w.run, now);
    forall q | q in w'.pcs ensures Bounded(w'.pcs[q], w'.keys) {
      if q != p { BoundedGrows(w.pcs[q], w.keys, w'.keys); }
    }
  }

  lemma BoundedCommand(pc: PC, k: State, k': State)
    requires Bounded(pc, k) && k'.total == k.total && k'.done >= k.done
    ensures Bounded(NextPC(pc, k), k')
  {
  }

  lemma BoundedGrows(pc: PC, k: State, k': State)
    requires Bounded(pc, k) && k'.total == k.total && k'.done >= k.done
    ensures Bounded(pc, k')
  {
  }

  lemma RowMove(w: World, p: Pid, now: int)
    requires Shaped(w) && SingleWinner(w) && RowTold(w) && AllBounded(w) && p in w.pcs
    ensures RowTold(Advanced(w, p, now))
  {
    var pc := w.pcs[p];
    var pc', k' := NextPC(pc, w.keys), NextKeys(pc, w.keys, w.run, now);
    CommandWrites(pc, w.keys, w.run, now);
    CommandMoves(pc, w.keys);
    assert Bounded(pc, w.keys);
    if pc.Winning? && pc.win.WriteRow? {
      RowWritten(w, p, now);
    } else if pc == Aborting(AbortRow) {
      assert Is(Advanced(w, p, now), p, Aborting(Aborted));
    } else {
      RowKept(w, p, pc', k');
    }
  }

  lemma RowWritten(w: World, p: Pid, now: int)
    requires Shaped(w) && RowTold(w) && p in w.pcs
    requires w.pcs[p].Winning? && w.pcs[p].win.WriteRow? && Bounded(w.pcs[p], w.keys)
    ensures RowTold(Advanced(w, p, now))
  {
    assert Is(Advanced(w, p, now), p, Returned(true));
    assert !w.pcs[ORCHESTRATOR].Aborting?;
  }

  lemma RowKept(w: World, p: Pid, pc': PC, k': State)
    requires RowTold(w) && p in w.pcs
    requires Writes(w.pcs[p], w.keys, k') && Moves(w.pcs[p], w.keys, pc')
    requires k'.rows == w.keys.rows && (pc' == Returned(true) ==> pc' == w.pcs[p])
    requires w.pcs[p] == Aborting(Aborted) <==> pc' == Aborting(Aborted)
    ensures RowTold(Moved(w, p, pc', k'))
  {
    var w' := Moved(w, p, pc', k');
    if w.keys.rows[w.run].status != InProgress {
      var q :| q in w.pcs && (w.pcs[q] == Returned(true) || w.pcs[q] == Aborting(Aborted));
      assert Is(w', q, w.pcs[q]);
    }
  }

  lemma MoveKeepsInv(w: World, p: Pid, pc': PC, k': State)
    requires Inv(w) && p in w.pcs
    requires Writes(w.pcs[p], w.keys, k') && Moves(w.pcs[p], w.keys, pc')
    requires OnItsWay(w.pcs[p]) && w.keys.dispatchDone && w.keys.inflight == 0 && !IsGetSet(w.pcs[p]) ==> OnItsWay(pc')
    requires RowTold(Moved(w, p, pc', k')) && AllBounded(Moved(w, p, pc', k'))
    ensures Inv(Moved(w, p, pc', k'))
  {
    ShapedMove(w, p, pc', k');
    CountedMove(w, p, pc', k');
    FailuresMove(w, p, pc', k');
    WinnerMove(w, p, pc', k');
    PendingMove(w, p, pc', k');
  }

  lemma AdvanceKeepsInv(w: World, p: Pid, now: int)
    requires Inv(w) && p in w.pcs
    ensures Inv(Advanced(w, p, now))
  {
    hide SingleWinner, SomebodyWillSee, Counted, FailuresCounted, Shaped;
    CommandWrites(w.pcs[p], w.keys, w.run, now);
    CommandMoves(w.pcs[p], w.keys);
    RowMove(w, p, now);
    BoundedMove(w, p, now);
    MoveKeepsInv(w, p, NextPC(w.pcs[p], w.keys), NextKeys(w.pcs[p], w.keys, w.run, now));
  }

  /** Where a verb's first command may take a participant that was between verbs. */
  predicate Begins(p: Pid, pc: PC) {
    || pc.Claiming? || pc.Progressing?
    || (p != ORCHESTRATOR && pc.Reporting?)
    || (p == ORCHESTRATOR && (pc.Closing? || pc == Aborting(AbortIdle)))
  }

  /** Not in _maybe_complete and not through a verb that writes the row. */
  predicate Outside(pc: PC) {
    !Completing(pc) && pc != Aborting(Aborted)
  }

  /** A participant that stays outside _maybe_complete, or appears outside it, leaves the
      winner, the row, the reads and whoever is on its way as they were. */
  lemma OutsideMove(w: World, p: Pid, pc: PC, k: State)
    requires SingleWinner(w) && RowTold(w) && SomebodyWillSee(w) && AllBounded(w)
    requires (p in w.pcs ==> Outside(w.pcs[p])) && Outside(pc)
    requires k == w.keys.(inflight := k.inflight) && (k.inflight == 0 ==> w.keys.inflight == 0)
    ensures var w' := Moved(w, p, pc, k);
      SingleWinner(w') && RowTold(w') && SomebodyWillSee(w') && AllBounded(w')
  {
    var w' := Moved(w, p, pc, k);
    if q :| q in w.pcs && Winner(w.pcs[q]) { assert Winner(w'.pcs[q]); }
    if q :| q in w.pcs && OnItsWay(w.pcs[q]) { assert OnItsWay(w'.pcs[q]); }
    if q :| q in w.pcs && (w.pcs[q] == Returned(true) || w.pcs[q] == Aborting(Aborted)) {
      assert Is(w', q, w.pcs[q]);
    }
    forall q | q in w'.pcs ensures Bounded(w'.pcs[q], k) {
      if q != p { BoundedGrows(w.pcs[q], w.keys, k); }
    }
  }

  /** `reports` are the producers that have reported failed, `p` among them if it is about to
      INCR the failure counter. */
  lemma BeginFailures(w: World, p: Pid, pc: PC, reports: set<Pid>)
    requires FailuresCounted(w) && Is(w, p, Working)
    requires reports == if pc == Reporting(IncrFailed) then w.failedReports + {p} else w.failedReports
    ensures FailuresCounted(Moved(w, p, pc, w.keys).(failedReports := reports))
  {
    FailingUpdate(w.pcs, p, pc);
    assert p !in w.failedReports;
    assert w.failedReports - Failing(w.pcs) == reports - Failing(w.pcs[p := pc]);
    forall q | q in reports ensures q in w.pcs[p := pc] && !Unreported(w.pcs[p := pc][q]) {}
  }

  lemma BeginShaped(w: World, p: Pid, pc: PC)
    requires Shaped(w) && Is(w, p, Working) && (Begins(p, pc) || (p != ORCHESTRATOR && pc.Ignored?))
    ensures Shaped(Moved(w, p, pc, w.keys))
  {
  }

  lemma BeginCounted(w: World, p: Pid, pc: PC)
    requires Counted(w) && Is(w, p, Working) && (Begins(p, pc) || (p != ORCHESTRATOR && pc.Ignored?))
    ensures Counted(Moved(w, p, pc, w.keys))
  {
    InFlightUpdate(w.pcs, p, pc);
  }

  /** Which producers reported matters to the failure counter only. */
  lemma ReportsFrame(w: World, reports: set<Pid>)
    requires Shaped(w) && Counted(w) && SingleWinner(w) && RowTold(w) && SomebodyWillSee(w) && AllBounded(w)
    requires FailuresCounted(w.(failedReports := reports))
    ensures Inv(w.(failedReports := reports))
  {
  }

  lemma BeginKeepsInv(w: World, p: Pid, pc: PC, reports: set<Pid>)
    requires Inv(w) && Is(w, p, Working) && (Begins(p, pc) || (p != ORCHESTRATOR && pc.Ignored?))
    requires reports == if pc == Reporting(IncrFailed) then w.failedReports + {p} else w.failedReports
    ensures Inv(Moved(w, p, pc, w.keys).(failedReports := reports))
  {
    hide SingleWinner, RowTold, SomebodyWillSee, AllBounded, Counted, FailuresCounted, Shaped;
    BeginShaped(w, p, pc);
    BeginCounted(w, p, pc);
    OutsideMove(w, p, pc, w.keys);
    BeginFailures(w, p, pc, reports);
    ReportsFrame(Moved(w, p, pc, w.keys), reports);
  }

  lemma AdmitShaped(w: World, p: Pid, child: Pid)
    requires Shaped(w) && Is(w, p, Claiming(IncrInflight)) && child !in w.pcs
    ensures Shaped(Next(w, Admit(p, child)))
  {
  }

  lemma AdmitCounted(w: World, p: Pid, child: Pid)
    requires Shaped(w) && Counted(w) && Is(w, p, Claiming(IncrInflight)) && child !in w.pcs
    ensures Counted(Next(w, Admit(p, child)))
  {
    InFlightUpdate(w.pcs, p, Working);
    InFlightUpdate(w.pcs[p := Working], child, Working);
  }

  lemma AdmitFailures(w: World, p: Pid, child: Pid)
    requires FailuresCounted(w) && Is(w, p, Claiming(IncrInflight)) && child !in w.pcs
    ensures FailuresCounted(Next(w, Admit(p, child)))
  {
    assert Failing(Next(w, Admit(p, child)).pcs) == Failing(w.pcs);
  }

  lemma AdmitKeepsInv(w: World, p: Pid, child: Pid)
    requires Inv(w) && Is(w, p, Claiming(IncrInflight)) && child !in w.pcs
    ensures Inv(Next(w, Admit(p, child)))
  {
    var w1 := Moved(w, p, Working, w.keys);
    var w2 := Moved(w1, child, Working, w.keys.(inflight := w.keys.inflight + 1));
    OutsideMove(w, p, Working, w.keys);
    OutsideMove(w1, child, Working, w2.keys);
    AdmitShaped(w, p, child);
    AdmitCounted(w, p, child);
    AdmitFailures(w, p, child);
    assert w2 == Next(w, Admit(p, child));
  }

  lemma OperatorKeepsInv(w: World, k: State)
    requires Inv(w)
    requires k == w.keys.(phase := k.phase, mode := k.mode, reason := k.reason)
    ensures Inv(w.(keys := k))
  {
    forall p | p in w.pcs ensures Bounded(w.pcs[p], k) { BoundedGrows(w.pcs[p], w.keys, k); }
  }

  lemma DoneKeepsInv(w: World, p: Pid, failed: bool)
    requires Inv(w)
    ensures Inv(Next(w, BeginDone(p, failed)))
  {
    if Is(w, p, Working) && p != ORCHESTRATOR {
      if !HasRun(w) {
        BeginKeepsInv(w, p, Ignored, w.failedReports);
      } else if failed {
        BeginKeepsInv(w, p, Reporting(IncrFailed), w.failedReports + {p});
      } else {
        BeginKeepsInv(w, p, Reporting(DecrInflight), w.failedReports);
      }
    }
  }

  /** The orchestrator's last verb. */
  lemma LastVerbKeepsInv(w: World)
    requires Inv(w)
    ensures Inv(Next(w, BeginFinish)) && Inv(Next(w, BeginAbort))
  {
    hide SingleWinner, RowTold, SomebodyWillSee, AllBounded, Counted, FailuresCounted;
    if Is(w, ORCHESTRATOR, Working) {
      BeginKeepsInv(w, ORCHESTRATOR, Closing, w.failedReports);
      BeginKeepsInv(w, ORCHESTRATOR, Aborting(AbortIdle), w.failedReports);
    }
  }

  lemma ClaimAndProgressKeepInv(w: World, p: Pid, n: nat, uf: Option<string>)
    requires Inv(w)
    ensures Inv(Next(w, BeginClaim(p))) && Inv(Next(w, BeginProgress(p, n, uf)))
  {
    if Is(w, p, Working) && HasRun(w) {
      BeginKeepsInv(w, p, Claiming(GetEnded), w.failedReports);
      BeginKeepsInv(w, p, Progressing(GetEndedFor(n, uf)), w.failedReports);
    }
  }

  predicate Operators(l: Label) {
    l.OpStop? || l.OpMode? || l.OpReason?
  }

  lemma OperatorsKeepInv(w: World, l: Label)
    requires Inv(w) && Operators(l)
    ensures Inv(Next(w, l))
  {
    hide Inv;
    OperatorKeepsInv(w, Next(w, l).keys);
  }

  lemma StepKeepsInv(w: World, l: Label)
    requires Inv(w)
    ensures Inv(Next(w, l))
  {
    hide SingleWinner, RowTold, SomebodyWillSee, AllBounded, Counted, FailuresCounted, Shaped, Advanced;
    match l
    case BeginClaim(p) => ClaimAndProgressKeepInv(w, p, 0, None);
    case Admit(p, child) =>
      if Is(w, p, Claiming(IncrInflight)) && child !in w.pcs { AdmitKeepsInv(w, p, child); }
    case BeginProgress(p, n, uf) => ClaimAndProgressKeepInv(w, p, n, uf);
    case BeginDone(p, failed) => DoneKeepsInv(w, p, failed);
    case BeginFinish => LastVerbKeepsInv(w);
    case BeginAbort => LastVerbKeepsInv(w);
    case Advance(p, now) => if p in w.pcs { AdvanceKeepsInv(w, p, now); }
    case _ => OperatorsKeepInv(w, l);
  }

  lemma OpenedHasInv(before: State, req: Request, id: RunId, now: int)
    requires FreshStart(before, req, id)
    ensures Inv(Opened(before, req, id, now))
  {
    var w := Opened(before, req, id, now);
    assert InFlight(w.pcs) == {} && Failing(w.pcs) == {};
  }

  lemma {:induction false} InvAlwaysHolds(w: World, tr: seq<Label>)
    requires Inv(w)
    ensures Inv(Run(w, tr))
  {
    if tr != [] {
      InvAlwaysHolds(w, tr[..|tr| - 1]);
      StepKeepsInv(Run(w, tr[..|tr| - 1]), tr[|tr| - 1]);
    }
  }
}
