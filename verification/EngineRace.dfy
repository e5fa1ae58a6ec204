/**
 What holds of every interleaving of the engine's commands inside one generation, and the one
 interleaving in which _maybe_complete completes a run with a producer still in flight.
 */
module EngineRace {
  import opened Common
  import opened Engine
  import opened EngineCommands
  import opened EngineSolo

  // ---- Every interleaving ---------------------------------------------------------------

  /** The in-flight key is exactly the number of claimed producers that have not decremented. */
  lemma InFlightKeyIsExact(before: State, req: Request, id: RunId, now: int, tr: seq<Label>)
    requires FreshStart(before, req, id)
    ensures var w := Run(Opened(before, req, id, now), tr); w.keys.inflight == |InFlight(w.pcs)|
  {
    OpenedHasInv(before, req, id, now);
    InvAlwaysHolds(Opened(before, req, id, now), tr);
  }

  /** At most one verb returns True. */
  lemma AtMostOneVerbWins(before: State, req: Request, id: RunId, now: int, tr: seq<Label>, p: Pid, q: Pid)
    requires FreshStart(before, req, id)
    requires var w := Run(Opened(before, req, id, now), tr);
      Is(w, p, Returned(true)) && Is(w, q, Returned(true))
    ensures p == q
  {
    OpenedHasInv(before, req, id, now);
    InvAlwaysHolds(Opened(before, req, id, now), tr);
  }

  /** Between commands of different verbs: nobody is inside one. */
  predicate AtRest(pc: PC) {
    pc.Working? || pc.Returned? || pc.Ignored? || pc == Aborting(Aborted)
  }

  /** No lost completion: once dispatch is done, every claimed producer has reported and no
      verb is under way, the run has ended and its row is closed. */
  lemma NoLostCompletion(before: State, req: Request, id: RunId, now: int, tr: seq<Label>)
    requires FreshStart(before, req, id)
    requires var w := Run(Opened(before, req, id, now), tr);
      && (forall p | p in w.pcs :: AtRest(w.pcs[p]))
      && w.keys.dispatchDone
      && (forall p | p in w.pcs && p != ORCHESTRATOR :: w.pcs[p].Returned?)
    ensures var w := Run(Opened(before, req, id, now), tr);
      && w.keys.ended
      && id in w.keys.rows
      && (w.keys.rows[id].status == Concluido || w.keys.rows[id].status == Parcial)
  {
    var w0 := Opened(before, req, id, now);
    var w := Run(w0, tr);
    OpenedHasInv(before, req, id, now);
    InvAlwaysHolds(w0, tr);
    RunIdIsConstant(w0, tr);
    assert InFlight(w.pcs) == {};
    assert w.keys.ended;
    var p :| p in w.pcs && Winner(w.pcs[p]);
    assert AtRest(w.pcs[p]);
  }

  lemma {:induction false} RunIdIsConstant(w: World, tr: seq<Label>)
    ensures Run(w, tr).run == w.run
  {
    if tr != [] {
      RunIdIsConstant(w, tr[..|tr| - 1]);
    }
  }

  // ---- A run marked "concluido" was running, LIGADO and clean when its winner looked ------

  /** The facts a winner reads before it decides. */
  datatype Look = LookPhase | LookMode | LookFailed

  /** `pc` is about to read the key, and the key says the run is not interrupted. */
  predicate Favourable(pc: PC, k: State, look: Look) {
    pc.Deciding? &&
    match look
    case LookPhase => pc.read.GetState? && k.phase == Running
    case LookMode => pc.read.GetMode? && k.mode == Ligado
    case LookFailed => pc.read.GetFailed? && k.failed <= 0
  }

  /** A verb that can only be where it is because its read was favourable. */
  predicate Favoured(pc: PC, look: Look) {
    || Clear(pc)
    || (pc.Deciding? && pc.read.GetFailed? && !look.LookFailed?)
    || (pc.Deciding? && pc.read.GetMode? && look.LookPhase?)
  }

  /** Somewhere in the trace `p` made that read, favourably. */
  ghost predicate Looked(w: World, tr: seq<Label>, p: Pid, look: Look) {
    exists i :: LookedAt(w, tr, p, look, i)
  }

  predicate LookedAt(w: World, tr: seq<Label>, p: Pid, look: Look, i: int) {
    && 0 <= i < |tr| && tr[i].Advance? && tr[i].p == p
    && var u := Run(w, tr[..i]); p in u.pcs && Favourable(u.pcs[p], u.keys, look)
  }

  lemma LookedExtends(w: World, tr: seq<Label>, l: Label, p: Pid, look: Look)
    ensures Looked(w, tr, p, look) ==> Looked(w, tr + [l], p, look)
    ensures l.Advance? && l.p == p && p in Run(w, tr).pcs && Favourable(Run(w, tr).pcs[p], Run(w, tr).keys, look)
      ==> Looked(w, tr + [l], p, look)
  {
    if i :| LookedAt(w, tr, p, look, i) {
      assert (tr + [l])[..i] == tr[..i];
      assert LookedAt(w, tr + [l], p, look, i);
    }
    assert (tr + [l])[..|tr|] == tr;
    if l.Advance? && l.p == p && p in Run(w, tr).pcs && Favourable(Run(w, tr).pcs[p], Run(w, tr).keys, look) {
      assert LookedAt(w, tr + [l], p, look, |tr|);
    }
  }

  lemma FavouredCommand(pc: PC, k: State, look: Look)
    ensures Favoured(NextPC(pc, k), look) ==> Favoured(pc, look) || Favourable(pc, k, look)
  {
  }

  lemma FavouredStep(w: World, l: Label, p: Pid, look: Look)
    requires p in Next(w, l).pcs && Favoured(Next(w, l).pcs[p], look)
    ensures p in w.pcs
    ensures Favoured(w.pcs[p], look) || (l.Advance? && l.p == p && Favourable(w.pcs[p], w.keys, look))
  {
    if l.Advance? && l.p == p {
      FavouredCommand(w.pcs[p], w.keys, look);
    }
  }

  lemma {:induction false} FavouredMeansLooked(w: World, tr: seq<Label>, p: Pid, look: Look)
    requires forall q | q in w.pcs :: !Favoured(w.pcs[q], look)
    requires p in Run(w, tr).pcs && Favoured(Run(w, tr).pcs[p], look)
    ensures Looked(w, tr, p, look)
  {
    if tr != [] {
      var init, l := tr[..|tr| - 1], tr[|tr| - 1];
      assert tr == init + [l];
      FavouredStep(Run(w, init), l, p, look);
      LookedExtends(w, init, l, p, look);
      if Favoured(Run(w, init).pcs[p], look) {
        FavouredMeansLooked(w, init, p, look);
      }
    }
  }

  predicate RowIs(w: World, status: Status) {
    w.run in w.keys.rows && w.keys.rows[w.run].status == status
  }

  /** Only a verb that decided "not interrupted" writes "concluido", and it then returns True. */
  lemma ConcluidoStep(w: World, l: Label)
    requires RowIs(Next(w, l), Concluido) && !RowIs(w, Concluido)
    ensures l.Advance? && l.p in w.pcs && Clear(w.pcs[l.p]) && Is(Next(w, l), l.p, Returned(true))
  {
  }

  lemma ReturnedStays(w: World, l: Label, p: Pid)
    requires Is(w, p, Returned(true))
    ensures Is(Next(w, l), p, Returned(true))
  {
    hide NextKeys;
  }

  /** `p` won, and made all three reads favourably. */
  ghost predicate WonClean(w: World, tr: seq<Label>, p: Pid) {
    && Is(Run(w, tr), p, Returned(true))
    && Looked(w, tr, p, LookPhase) && Looked(w, tr, p, LookMode) && Looked(w, tr, p, LookFailed)
  }

  ghost predicate NobodyFavoured(w: World) {
    forall q, look | q in w.pcs :: !Favoured(w.pcs[q], look)
  }

  lemma {:induction false} ConcluidoMeansWonClean(w: World, tr: seq<Label>) returns (p: Pid)
    requires NobodyFavoured(w) && !RowIs(w, Concluido) && RowIs(Run(w, tr), Concluido)
    ensures WonClean(w, tr, p)
  {
    var init, l := tr[..|tr| - 1], tr[|tr| - 1];
    assert tr == init + [l];
    var u := Run(w, init);
    RunIdIsConstant(w, init);
    if RowIs(u, Concluido) {
      p := ConcluidoMeansWonClean(w, init);
      ReturnedStays(u, l, p);
    } else {
      ConcluidoStep(u, l);
      p := l.p;
      forall look ensures Looked(w, init, p, look) { FavouredMeansLooked(w, init, p, look); }
    }
    forall look ensures Looked(w, init, p, look) ==> Looked(w, tr, p, look) { LookedExtends(w, init, l, p, look); }
  }

  /** Nothing but start makes a run running: if it is running now, it always was. */
  lemma {:induction false} PhaseNeverReturns(w: World, tr: seq<Label>, i: nat)
    requires i <= |tr| && Run(w, tr).keys.phase == Running
    ensures Run(w, tr[..i]).keys.phase == Running
    decreases |tr|
  {
    if i == |tr| {
      assert tr[..i] == tr;
    } else {
      var init, l := tr[..|tr| - 1], tr[|tr| - 1];
      assert init[..i] == tr[..i];
      PhaseStep(Run(w, init), l);
      PhaseNeverReturns(w, init, i);
    }
  }

  lemma PhaseStep(w: World, l: Label)
    ensures Next(w, l).keys.phase == Running ==> w.keys.phase == Running
  {
    if l.Advance? && l.p in w.pcs {
      CommandWrites(w.pcs[l.p], w.keys, w.run, l.now);
    }
  }

  predicate RunningUpTo(w: World, tr: seq<Label>, i: int)
    requires i <= |tr|
  {
    forall j | 0 <= j <= i :: Run(w, tr[..j]).keys.phase == Running
  }

  /** `p` read the state while it was RUNNING, and it had been since `w`. */
  ghost predicate SawRunning(w: World, tr: seq<Label>, p: Pid) {
    exists i :: LookedAt(w, tr, p, LookPhase, i) && RunningUpTo(w, tr, i)
  }

  lemma LookedMeansSawRunning(w: World, tr: seq<Label>, p: Pid)
    requires Looked(w, tr, p, LookPhase)
    ensures SawRunning(w, tr, p)
  {
    var i :| LookedAt(w, tr, p, LookPhase, i);
    forall j | 0 <= j <= i ensures Run(w, tr[..j]).keys.phase == Running {
      PhaseNeverReturns(w, tr[..i], j);
      assert tr[..i][..j] == tr[..j];
    }
    assert RunningUpTo(w, tr, i);
  }

  /** "concluido" is written only if the verb that won read the state RUNNING, as it had been
      from the run's start, read the mode LIGADO and read no failure, and the plan was complete. */
  lemma ConcluidoMeansUninterrupted(before: State, req: Request, id: RunId, now: int, tr: seq<Label>)
    requires FreshStart(before, req, id)
    requires RowIs(Run(Opened(before, req, id, now), tr), Concluido)
    ensures exists p :: WonClean(Opened(before, req, id, now), tr, p) && SawRunning(Opened(before, req, id, now), tr, p)
    ensures var w := Run(Opened(before, req, id, now), tr);
      id in w.keys.rows && PlanSize(req) <= w.keys.rows[id].dispatched <= w.keys.done
  {
    var w0 := Opened(before, req, id, now);
    OpenedHasInv(before, req, id, now);
    InvAlwaysHolds(w0, tr);
    RunIdIsConstant(w0, tr);
    PlanIsConstant(w0, tr);
    var p := ConcluidoMeansWonClean(w0, tr);
    LookedMeansSawRunning(w0, tr, p);
  }

  lemma {:induction false} PlanIsConstant(w: World, tr: seq<Label>)
    ensures Run(w, tr).keys.total == w.keys.total
  {
    if tr != [] {
      var init, l := tr[..|tr| - 1], tr[|tr| - 1];
      PlanIsConstant(w, init);
      var u := Run(w, init);
      if l.Advance? && l.p in u.pcs {
        CommandWrites(u.pcs[l.p], u.keys, u.run, l.now);
      }
    }
  }

  // ---- The race, exactly -----------------------------------------------------------------

  /** It saw nothing in flight; what is left is the read of dispatch_done and what follows. */
  predicate Committed(pc: PC) {
    pc.ReadDispatch? || pc.Deciding? || Winner(pc)
  }

  /** The in-flight read and the dispatch read of _maybe_complete are two commands. A verb that
      read zero while the orchestrator was still dispatching is the hazard: a producer claimed
      in between is invisible to it once dispatch_done is set. */
  ghost predicate Hazard(w: World) {
    w.keys.inflight > 0 && exists p :: p in w.pcs && w.pcs[p].ReadDispatch?
  }

  /** The run was marked ended with a claimed producer still at work. */
  predicate Premature(w: World) {
    w.keys.ended && w.keys.inflight > 0
  }

  /** The orchestrator is about to SET dispatch_done. */
  predicate ClosesNow(w: World, l: Label) {
    l.Advance? && l.p == ORCHESTRATOR && Is(w, ORCHESTRATOR, Closing)
  }

  /** What a completing verb relies on: nothing is in flight, what it read of the counters is
      still what they say, and "not interrupted" means no producer reported failed. */
  ghost predicate Safe(w: World) {
    && (forall p | p in w.pcs && Committed(w.pcs[p]) && w.keys.dispatchDone :: w.keys.inflight == 0)
    && (forall p | p in w.pcs && HasUnits(w.pcs[p]) :: Units(w.pcs[p]) == w.keys.done)
    && (forall p | p in w.pcs && Clear(w.pcs[p]) :: w.failedReports == {})
    && RowIsSound(w.keys.rows, w.run, w.keys.done, w.failedReports == {})
  }

  /** A completed row holds the final count, and is "concluido" only on a clean run. */
  predicate RowIsSound(rows: Rows, run: RunId, done: int, clean: bool) {
    run in rows && (rows[run].status == Concluido || rows[run].status == Parcial) ==>
      rows[run].dispatched == done && (rows[run].status == Concluido ==> clean)
  }

  /** Before dispatch_done is set nobody can be further than its read. */
  lemma SafeWhileDispatching(w: World)
    requires Inv(w) && !w.keys.dispatchDone
    ensures Safe(w)
  {
  }

  /** Dispatch done and nothing in flight: every participant is inside _maybe_complete or
      through it, and every failure reported is in the counter. */
  lemma Grounded(w: World)
    requires Inv(w) && w.keys.dispatchDone && w.keys.inflight == 0
    ensures forall p | p in w.pcs :: Completing(w.pcs[p])
    ensures w.keys.failed == |w.failedReports|
  {
    assert InFlight(w.pcs) == {};
    assert Failing(w.pcs) == {};
    assert w.failedReports - Failing(w.pcs) == w.failedReports;
  }

  /** One command of a completing verb on grounded counters. */
  lemma GroundedMove(w: World, p: Pid, now: int)
    requires Inv(w) && Safe(w) && w.keys.dispatchDone && w.keys.inflight == 0 && p in w.pcs
    ensures Safe(Advanced(w, p, now))
  {
    Grounded(w);
    var pc := w.pcs[p];
    CommandWrites(pc, w.keys, w.run, now);
    CommandMoves(pc, w.keys);
    GroundedCommand(pc, w.keys, w.failedReports == {});
    GroundedRow(pc, w.keys, w.run, now, w.failedReports == {});
    SafeMove(w, p, NextPC(pc, w.keys), NextKeys(pc, w.keys, w.run, now));
  }

  lemma SafeMove(w: World, p: Pid, pc': PC, k': State)
    requires Safe(w) && w.keys.dispatchDone && w.keys.inflight == 0 && p in w.pcs
    requires k'.inflight == 0 && k'.done == w.keys.done
    requires HasUnits(pc') ==> Units(pc') == w.keys.done
    requires Clear(pc') ==> w.failedReports == {}
    requires RowIsSound(k'.rows, w.run, w.keys.done, w.failedReports == {})
    ensures Safe(Moved(w, p, pc', k'))
  {
  }

  /** The row a grounded command leaves. */
  lemma GroundedRow(pc: PC, k: State, run: RunId, now: int, clean: bool)
    requires RowIsSound(k.rows, run, k.done, clean)
    requires HasUnits(pc) ==> Units(pc) == k.done
    requires Clear(pc) ==> clean
    ensures RowIsSound(NextKeys(pc, k, run, now).rows, run, k.done, clean)
  {
  }

  /** Units and verdicts a single command can produce. */
  lemma GroundedCommand(pc: PC, k: State, clean: bool)
    requires HasUnits(pc) ==> Units(pc) == k.done
    requires Clear(pc) ==> clean
    requires k.failed <= 0 ==> clean
    ensures HasUnits(NextPC(pc, k)) ==> Units(NextPC(pc, k)) == k.done
    ensures Clear(NextPC(pc, k)) ==> clean
  {
  }

  ghost predicate NobodyWorks(w: World) {
    forall p :: !Is(w, p, Working) && !Is(w, p, Claiming(IncrInflight))
  }

  /** With nobody between verbs, the labels other than Advance are the operators' writes. */
  lemma OnlyOperators(w: World, l: Label)
    requires NobodyWorks(w) && !l.Advance?
    ensures var w' := Next(w, l);
      w' == w.(keys := w.keys.(phase := w'.keys.phase, mode := w'.keys.mode, reason := w'.keys.reason))
  {
  }

  lemma SafeFrame(w: World, k: State)
    requires Safe(w) && k == w.keys.(phase := k.phase, mode := k.mode, reason := k.reason)
    ensures Safe(w.(keys := k))
  {
  }

  lemma SafeGrounded(w: World, l: Label)
    requires Inv(w) && Safe(w) && w.keys.dispatchDone && w.keys.inflight == 0
    ensures Safe(Next(w, l))
  {
    hide Safe, Inv;
    if l.Advance? {
      if l.p in w.pcs { GroundedMove(w, l.p, l.now); }
    } else {
      Grounded(w);
      assert NobodyWorks(w);
      OnlyOperators(w, l);
      SafeFrame(w, Next(w, l).keys);
    }
  }

  lemma SafeStep(w: World, l: Label)
    requires Inv(w) && Safe(w) && Inv(Next(w, l))
    requires !(ClosesNow(w, l) && Hazard(w))
    ensures Safe(Next(w, l))
  {
    if !Next(w, l).keys.dispatchDone {
      SafeWhileDispatching(Next(w, l));
    } else if !w.keys.dispatchDone {
      SafeClosing(w, l);
    } else if w.keys.inflight == 0 {
      SafeGrounded(w, l);
    } else {
      SafeInFlight(w, l);
    }
  }

  /** dispatch_done has just been set. */
  lemma SafeClosing(w: World, l: Label)
    requires Inv(w) && Safe(w) && !w.keys.dispatchDone && Next(w, l).keys.dispatchDone
    requires !(ClosesNow(w, l) && Hazard(w))
    ensures Safe(Next(w, l))
  {
    OnlyClosingSetsDispatch(w, l);
    ClosedIsSafe(w, Next(w, l).keys);
  }

  lemma OnlyClosingSetsDispatch(w: World, l: Label)
    requires Shaped(w) && !w.keys.dispatchDone && Next(w, l).keys.dispatchDone
    ensures ClosesNow(w, l)
    ensures Next(w, l) == Moved(w, ORCHESTRATOR, ReadInflight, w.keys.(dispatchDone := true))
  {
    assert l.Advance? && l.p in w.pcs;
    CommandWrites(w.pcs[l.p], w.keys, w.run, l.now);
  }

  lemma ClosedIsSafe(w: World, k: State)
    requires Inv(w) && Safe(w) && !w.keys.dispatchDone && !Hazard(w)
    requires k == w.keys.(dispatchDone := true)
    ensures Safe(Moved(w, ORCHESTRATOR, ReadInflight, k))
  {
    hide Inv, Committed, HasUnits, Clear, Units, RowIsSound;
    BeforeDispatch(w);
    FirstReadIsNothing();
    var w' := Moved(w, ORCHESTRATOR, ReadInflight, k);
    forall p | p in w'.pcs && p != ORCHESTRATOR ensures p in w.pcs && w'.pcs[p] == w.pcs[p] {}
    forall p | p in w'.pcs && Committed(w'.pcs[p]) ensures w'.keys.inflight == 0 {
      assert w.pcs[p].ReadDispatch?;
    }
  }

  lemma BeforeDispatch(w: World)
    requires Inv(w) && !w.keys.dispatchDone
    ensures w.keys.inflight >= 0 && forall p | p in w.pcs && Committed(w.pcs[p]) :: w.pcs[p].ReadDispatch?
  {
  }

  lemma FirstReadIsNothing()
    ensures !Committed(ReadInflight) && !HasUnits(ReadInflight) && !Clear(ReadInflight)
  {
  }

  ghost predicate NobodyCommitted(w: World) {
    forall p | p in w.pcs :: !Committed(w.pcs[p])
  }

  lemma NobodyCommittedIsSafe(w: World)
    requires Shaped(w) && RowTold(w) && NobodyCommitted(w)
    ensures Safe(w)
  {
    if w.keys.rows[w.run].status != InProgress {
      var p :| p in w.pcs && (w.pcs[p] == Returned(true) || w.pcs[p] == Aborting(Aborted));
      assert p == ORCHESTRATOR;
    }
  }

  lemma UncommittedCommand(pc: PC, k: State)
    requires !Committed(pc) && k.inflight > 0
    ensures !Committed(NextPC(pc, k))
  {
  }

  lemma UncommittedStep(w: World, l: Label)
    requires NobodyCommitted(w) && w.keys.inflight > 0
    ensures NobodyCommitted(Next(w, l))
  {
    if l.Advance? && l.p in w.pcs {
      UncommittedCommand(w.pcs[l.p], w.keys);
    }
  }

  /** With producers in flight after dispatch, nobody is committed. */
  lemma SafeInFlight(w: World, l: Label)
    requires Counted(w) && Safe(w) && w.keys.dispatchDone && w.keys.inflight != 0 && Inv(Next(w, l))
    ensures Safe(Next(w, l))
  {
    assert NobodyCommitted(w);
    UncommittedStep(w, l);
    NobodyCommittedIsSafe(Next(w, l));
  }

  /** At no SET dispatch_done of the trace was there a hazard. */
  ghost predicate HazardFree(w: World, tr: seq<Label>) {
    tr == [] ||
    var init, l := tr[..|tr| - 1], tr[|tr| - 1];
    HazardFree(w, init) && !(ClosesNow(Run(w, init), l) && Hazard(Run(w, init)))
  }

  lemma {:induction false} SafeRun(w: World, tr: seq<Label>)
    requires Inv(w) && Safe(w) && HazardFree(w, tr)
    ensures Inv(Run(w, tr)) && Safe(Run(w, tr))
  {
    if tr != [] {
      var init, l := tr[..|tr| - 1], tr[|tr| - 1];
      SafeRun(w, init);
      StepKeepsInv(Run(w, init), l);
      SafeStep(Run(w, init), l);
    }
  }

  predicate Sound(w: World) {
    && (w.keys.ended ==> w.keys.dispatchDone && w.keys.inflight == 0)
    && (RowIs(w, Concluido) || RowIs(w, Parcial) ==> w.keys.rows[w.run].dispatched == w.keys.done)
    && (RowIs(w, Concluido) ==> w.failedReports == {} && w.keys.done >= w.keys.total)
  }

  lemma SafeIsSound(w: World)
    requires Inv(w) && Safe(w)
    ensures Sound(w)
  {
    if w.keys.ended {
      var p :| p in w.pcs && Winner(w.pcs[p]);
      assert Committed(w.pcs[p]);
    }
  }

  /** A run without the hazard completes soundly: when it is marked ended, dispatch is done and
      nothing is in flight, now and ever after; its closed row holds the final count of units
      dispatched; and "concluido" means that no producer reported failed. */
  lemma CompletionIsSound(before: State, req: Request, id: RunId, now: int, tr: seq<Label>)
    requires FreshStart(before, req, id)
    requires HazardFree(Opened(before, req, id, now), tr)
    ensures var w := Run(Opened(before, req, id, now), tr);
      w.keys.ended ==> w.keys.dispatchDone && w.keys.inflight == 0 && InFlight(w.pcs) == {}
    ensures var w := Run(Opened(before, req, id, now), tr);
      && (RowIs(w, Concluido) || RowIs(w, Parcial) ==> id in w.keys.rows && w.keys.rows[id].dispatched == w.keys.done)
      && (RowIs(w, Concluido) ==> w.failedReports == {} && w.keys.done >= PlanSize(req))
  {
    var w0 := Opened(before, req, id, now);
    OpenedHasInv(before, req, id, now);
    SafeWhileDispatching(w0);
    SafeRun(w0, tr);
    RunIdIsConstant(w0, tr);
    PlanIsConstant(w0, tr);
    SafeIsSound(Run(w0, tr));
  }

  /** From a hazard, letting the committed verb run alone completes the run prematurely, with
      the verdict of the keys as they stand. */
  lemma HazardIsRealized(w: World, p: Pid, now: int) returns (tr: seq<Label>)
    requires Inv(w) && Is(w, ORCHESTRATOR, Closing)
    requires w.keys.inflight > 0 && Is(w, p, ReadDispatch)
    ensures var w' := Next(w, Advance(ORCHESTRATOR, now));
      Run(w', tr) == Moved(w', p, Returned(true), Completed(w'.keys, w.run, true, now))
    ensures Premature(Run(Next(w, Advance(ORCHESTRATOR, now)), tr))
  {
    var w' := Next(w, Advance(ORCHESTRATOR, now));
    assert !w.keys.ended;
    SoloHere(w', p, ReadDispatch);
    SoloFrom(w', p, ReadDispatch, w'.keys, now);
    SoloDeciding(w', p, w'.keys, now);
    tr := SoloIsARun(w', p, now);
  }

  /** Once dispatch_done is set there is no second SET of it. */
  lemma {:induction false} NoHazardAfterClosing(w: World, tr: seq<Label>)
    requires Inv(w) && w.keys.dispatchDone
    ensures Run(w, tr).keys.dispatchDone && HazardFree(w, tr)
  {
    if tr != [] {
      var init, l := tr[..|tr| - 1], tr[|tr| - 1];
      NoHazardAfterClosing(w, init);
      InvAlwaysHolds(w, init);
      DispatchStaysDone(Run(w, init), l);
    }
  }

  lemma DispatchStaysDone(w: World, l: Label)
    requires w.keys.dispatchDone
    ensures Next(w, l).keys.dispatchDone
  {
    if l.Advance? && l.p in w.pcs {
      CommandWrites(w.pcs[l.p], w.keys, w.run, l.now);
    }
  }

  lemma SafeInvStep(w: World, l: Label)
    requires Inv(w) && Safe(w) && !(ClosesNow(w, l) && Hazard(w))
    ensures Inv(Next(w, l)) && Safe(Next(w, l))
  {
    StepKeepsInv(w, l);
    SafeStep(w, l);
  }

  lemma ClosingSetsDispatch(w: World, now: int)
    requires Shaped(w) && Is(w, ORCHESTRATOR, Closing)
    ensures !w.keys.dispatchDone && Next(w, Advance(ORCHESTRATOR, now)).keys.dispatchDone
  {
  }

  lemma ClosingIsSafe(w: World, l: Label)
    requires Inv(w) && ClosesNow(w, l) && !Hazard(w)
    ensures Inv(Next(w, l)) && Safe(Next(w, l)) && Next(w, l).keys.dispatchDone
  {
    ClosingSetsDispatch(w, l.now);
    SafeWhileDispatching(w);
    SafeInvStep(w, l);
  }

  lemma SafeNeverPremature(w: World, tr: seq<Label>)
    requires Inv(w) && Safe(w) && w.keys.dispatchDone
    ensures !Premature(Run(w, tr))
  {
    NoHazardAfterClosing(w, tr);
    SafeRun(w, tr);
    SafeIsSound(Run(w, tr));
  }

  /** The exact condition: when the orchestrator is about to set dispatch_done, some
      continuation marks the run ended with a producer in flight if and only if producers are
      in flight and some verb has already read zero and not yet read dispatch_done. */
  lemma PrematureIffHazard(w: World, now: int)
    requires Inv(w) && Is(w, ORCHESTRATOR, Closing)
    ensures (exists tr :: Premature(Run(Next(w, Advance(ORCHESTRATOR, now)), tr))) <==> Hazard(w)
  {
    if Hazard(w) {
      var p :| p in w.pcs && w.pcs[p].ReadDispatch?;
      var tr := HazardIsRealized(w, p, now);
    } else {
      ClosingIsSafe(w, Advance(ORCHESTRATOR, now));
      forall tr { SafeNeverPremature(Next(w, Advance(ORCHESTRATOR, now)), tr); }
    }
  }

  const ONE_UF: Request := Request("describe", "full", "default", ["SP"], "atrativos", None, None)

  lemma RunOne(w: World, tr: seq<Label>, l: Label)
    ensures Run(w, tr + [l]) == Next(Run(w, tr), l)
  {
    assert (tr + [l])[..|tr|] == tr;
  }

  lemma RunThree(w: World, a: Label, b: Label, c: Label)
    ensures Run(w, [a, b, c]) == Next(Next(Next(w, a), b), c)
  {
    RunOne(w, [], a);
    RunOne(w, [a], b);
    RunOne(w, [a, b], c);
    assert [] + [a] == [a] && [a] + [b] == [a, b] && [a, b] + [c] == [a, b, c];
  }

  function ClaimLabels(child: Pid): seq<Label> {
    [BeginClaim(ORCHESTRATOR), Advance(ORCHESTRATOR, 0), Admit(ORCHESTRATOR, child)]
  }

  lemma OrchestratorClaims(w: World, child: Pid)
    requires Is(w, ORCHESTRATOR, Working) && HasRun(w) && !w.keys.ended && child !in w.pcs
    ensures Run(w, ClaimLabels(child)) ==
      w.(pcs := w.pcs[child := Working], keys := w.keys.(inflight := w.keys.inflight + 1))
  {
    RunThree(w, BeginClaim(ORCHESTRATOR), Advance(ORCHESTRATOR, 0), Admit(ORCHESTRATOR, child));
    hide Run, Finalized;
    assert w.pcs[ORCHESTRATOR := Claiming(IncrInflight)][ORCHESTRATOR := Working] == w.pcs;
  }

  function ReportLabels(p: Pid): seq<Label> {
    [BeginDone(p, false), Advance(p, 0), Advance(p, 0)]
  }

  lemma LastProducerReports(w: World, p: Pid)
    requires Is(w, p, Working) && p != ORCHESTRATOR && HasRun(w) && w.keys.inflight == 1
    ensures Run(w, ReportLabels(p)) == Moved(w, p, ReadDispatch, w.keys.(inflight := 0))
  {
    hide Finalized;
    RunThree(w, BeginDone(p, false), Advance(p, 0), Advance(p, 0));
  }

  lemma OrchestratorProgresses(w: World) returns (tr: seq<Label>)
    requires Is(w, ORCHESTRATOR, Working) && HasRun(w) && !w.keys.ended
    ensures Run(w, tr) == w.(keys := w.keys.(done := w.keys.done + 1))
  {
    var l := BeginProgress(ORCHESTRATOR, 1, None);
    SoloProgress(w, ORCHESTRATOR, 1, None, 0);
    var rest := SoloIsARun(Next(w, l), ORCHESTRATOR, 0);
    RunOne(w, [], l);
    RunConcat(w, [] + [l], rest);
    tr := [] + [l] + rest;
  }

  /** The first producer ends and reads zero in flight; the orchestrator claims the second,
      records the UF and is about to SET dispatch_done. */
  lemma HazardIsReachable(w0: World) returns (tr: seq<Label>)
    requires w0.pcs == map[ORCHESTRATOR := Working] && HasRun(w0) && !w0.keys.ended && w0.keys.inflight == 0
    ensures var w := Run(w0, tr);
      && Is(w, ORCHESTRATOR, Closing) && Is(w, 1, ReadDispatch) && Is(w, 2, Working)
      && w.keys == w0.keys.(inflight := 1, done := w0.keys.done + 1) && w.run == w0.run
  {
    OrchestratorClaims(w0, 1);
    var w1 := Run(w0, ClaimLabels(1));
    LastProducerReports(w1, 1);
    RunConcat(w0, ClaimLabels(1), ReportLabels(1));
    var tr2 := ClaimLabels(1) + ReportLabels(1);
    var w2 := Run(w0, tr2);
    OrchestratorClaims(w2, 2);
    RunConcat(w0, tr2, ClaimLabels(2));
    var tr3 := tr2 + ClaimLabels(2);
    var w3 := Run(w0, tr3);
    var progress := OrchestratorProgresses(w3);
    RunConcat(w0, tr3, progress);
    var tr4 := tr3 + progress;
    RunOne(w0, tr4, BeginFinish);
    tr := tr4 + [BeginFinish];
  }

  lemma VerdictOfTheRace(w: World)
    requires Is(w, ORCHESTRATOR, Closing) && w.run in w.keys.rows
    requires !Interrupted(w.keys)
    ensures var k := Next(w, Advance(ORCHESTRATOR, 0)).keys;
      k.rows == w.keys.rows && Completed(k, w.run, true, 0).rows[w.run].status == Concluido
  {
  }

  /** From the hazard on: SET dispatch_done, then the first producer alone. */
  lemma RaceFromHazard(w: World) returns (tr: seq<Label>)
    requires Inv(w) && Is(w, ORCHESTRATOR, Closing) && Is(w, 1, ReadDispatch) && Is(w, 2, Working)
    requires w.keys.inflight == 1 && !Interrupted(w.keys)
    ensures var w' := Run(w, tr); Premature(w') && Is(w', 2, Working) && RowIs(w', Concluido)
  {
    var close := [Advance(ORCHESTRATOR, 0)];
    RunOne(w, [], close[0]);
    assert [] + close == close;
    var rest := HazardIsRealized(w, 1, 0);
    tr := close + rest;
    RunConcat(w, close, rest);
    VerdictOfTheRace(w);
  }

  /** Any run with a plan of one UF that has just opened can be completed prematurely. */
  lemma RaceFrom(w0: World) returns (tr: seq<Label>)
    requires Inv(w0) && w0.pcs == map[ORCHESTRATOR := Working] && !w0.keys.ended && w0.keys.inflight == 0
    requires w0.keys.phase == Running && w0.keys.mode == Ligado && w0.keys.failed == 0
    requires w0.keys.done == 0 && w0.keys.total == 1
    ensures var w := Run(w0, tr); Premature(w) && Is(w, 2, Working) && RowIs(w, Concluido)
  {
    var pre := HazardIsReachable(w0);
    InvAlwaysHolds(w0, pre);
    var rest := RaceFromHazard(Run(w0, pre));
    RunConcat(w0, pre, rest);
    tr := pre + rest;
  }

  /** So single commands alone do not make completion race-safe: this run is marked ended and
      "concluido" while its second producer is still in flight. */
  lemma PrematureCompletionHappens() returns (tr: seq<Label>)
    ensures FreshStart(FLUSHED, ONE_UF, "r1")
    ensures var w := Run(Opened(FLUSHED, ONE_UF, "r1", 0), tr);
      Premature(w) && Is(w, 2, Working) && RowIs(w, Concluido)
  {
    OpenedHasInv(FLUSHED, ONE_UF, "r1", 0);
    tr := RaceFrom(Opened(FLUSHED, ONE_UF, "r1", 0));
  }
}
