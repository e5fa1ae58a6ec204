/**
 The command-level engine refines the atomic one: a verb whose commands run with nobody in
 between leaves the keys, the row and the result of the atomic verb.
 */
module EngineSolo {
  import opened Common
  import opened Engine
  import opened EngineCommands

  /** Nothing left to issue, or (a claim's INCR) issued under a label of its own. */
  predicate Stuck(pc: PC) {
    pc.Working? || pc == Claiming(IncrInflight) || pc.Returned? || pc.Ignored? || pc == Aborting(Aborted)
  }

  /** Commands left in the verb, at most. */
  function Rank(pc: PC): nat {
    match pc
    case Claiming(GetEnded) => 1
    case Progressing(GetEndedFor(_, _)) => 3
    case Progressing(SetUf(_, _)) => 2
    case Progressing(IncrDone(_)) => 1
    case Reporting(IncrFailed) => 17
    case Reporting(DecrInflight) => 16
    case Clamping => 15
    case Closing => 15
    case ReadInflight => 14
    case ReadDispatch => 13
    case Deciding(GetDone) => 12
    case Deciding(GetTotal(_)) => 11
    case Deciding(GetState(_, _)) => 10
    case Deciding(GetMode(_, _)) => 9
    case Deciding(GetFailed(_, _)) => 8
    case Deciding(GetSetEnded(_, _)) => 7
    case Winning(SetIdle, _, _) => 6
    case Winning(DelUf, _, _) => 5
    case Winning(SetEnabled, _, _) => 4
    case Winning(GetReason, _, _) => 3
    case Winning(SetModeOff, _, _) => 2
    case Winning(WriteRow, _, _) => 1
    case Aborting(AbortIdle) => 5
    case Aborting(AbortUf) => 4
    case Aborting(AbortEnabled) => 3
    case Aborting(AbortRunId) => 2
    case Aborting(AbortRow) => 1
    case _ => 0
  }

  lemma RankDecreases(pc: PC, k: State)
    requires !Stuck(pc)
    ensures Rank(NextPC(pc, k)) < Rank(pc)
  {
  }

  /** `p` issues every command left of its verb; nobody else moves. */
  function Solo(w: World, p: Pid, now: int): World
    requires p in w.pcs
    decreases Rank(w.pcs[p])
  {
    if Stuck(w.pcs[p]) then w
    else
      RankDecreases(w.pcs[p], w.keys);
      Solo(Advanced(w, p, now), p, now)
  }

  /** A solo verb is one of the interleavings. */
  lemma {:induction false} SoloIsARun(w: World, p: Pid, now: int) returns (tr: seq<Label>)
    requires p in w.pcs
    ensures Run(w, tr) == Solo(w, p, now)
    decreases Rank(w.pcs[p])
  {
    tr := [];
    if !Stuck(w.pcs[p]) {
      RankDecreases(w.pcs[p], w.keys);
      var rest := SoloIsARun(Advanced(w, p, now), p, now);
      var first := [Advance(p, now)];
      assert Run(w, first) == Next(Run(w, []), Advance(p, now)) by { assert first[..0] == []; }
      RunConcat(w, first, rest);
      tr := first + rest;
    }
  }

  /** What the winner's writes leave, whatever it decided. */
  function AfterWin(k: State, run: RunId, done: int, interrupted: bool, now: int): State {
    k.(phase := Idle, currentUf := None, enabled := false,
       mode := if k.reason.None? then Desligado else k.mode,
       rows := Finalized(k.rows, true, run, if interrupted then Parcial else Concluido, done, now))
  }

  /** One command of a solo verb, in terms of its program counter and the keys alone. */
  lemma SoloFrom(w: World, p: Pid, pc: PC, k: State, now: int)
    requires p in w.pcs && !Stuck(pc)
    ensures Solo(Moved(w, p, pc, k), p, now) ==
      Solo(Moved(w, p, NextPC(pc, k), NextKeys(pc, k, w.run, now)), p, now)
  {
    var u := Moved(w, p, pc, k);
    assert u.pcs[p := NextPC(pc, k)] == w.pcs[p := NextPC(pc, k)];
    assert Advanced(u, p, now) == Moved(w, p, NextPC(pc, k), NextKeys(pc, k, w.run, now));
  }

  lemma SoloHere(w: World, p: Pid, pc: PC)
    requires Is(w, p, pc)
    ensures w == Moved(w, p, pc, w.keys)
  {
    assert w.pcs[p := pc] == w.pcs;
  }

  /** The winner's last commands: the reason decides the mode, then the row. */
  lemma SoloClosing(w: World, p: Pid, k: State, now: int, done: int, interrupted: bool)
    requires p in w.pcs
    ensures Solo(Moved(w, p, Winning(GetReason, done, interrupted), k), p, now) ==
      Moved(w, p, Returned(true), k.(
        mode := if k.reason.None? then Desligado else k.mode,
        rows := Finalized(k.rows, true, w.run, if interrupted then Parcial else Concluido, done, now)))
  {
    hide Rank, Finalized;
    SoloFrom(w, p, Winning(GetReason, done, interrupted), k, now);
    if k.reason.None? {
      SoloFrom(w, p, Winning(SetModeOff, done, interrupted), k, now);
      SoloLastWrite(w, p, k.(mode := Desligado), now, done, interrupted);
    } else {
      SoloLastWrite(w, p, k, now, done, interrupted);
    }
    hide Solo, NextPC, NextKeys;
  }

  lemma SoloLastWrite(w: World, p: Pid, k: State, now: int, done: int, interrupted: bool)
    requires p in w.pcs
    ensures Solo(Moved(w, p, Winning(WriteRow, done, interrupted), k), p, now) ==
      Moved(w, p, Returned(true), k.(
        rows := Finalized(k.rows, true, w.run, if interrupted then Parcial else Concluido, done, now)))
  {
    hide Rank, Finalized;
    SoloFrom(w, p, Winning(WriteRow, done, interrupted), k, now);
  }

  lemma SoloWinning(w: World, p: Pid, k: State, now: int, done: int, interrupted: bool)
    requires p in w.pcs
    ensures Solo(Moved(w, p, Winning(SetIdle, done, interrupted), k), p, now) ==
      Moved(w, p, Returned(true), AfterWin(k, w.run, done, interrupted, now))
  {
    var k1 := k.(phase := Idle);
    var k2 := k1.(currentUf := None);
    var k3 := k2.(enabled := false);
    SoloFrom(w, p, Winning(SetIdle, done, interrupted), k, now);
    SoloFrom(w, p, Winning(DelUf, done, interrupted), k1, now);
    SoloFrom(w, p, Winning(SetEnabled, done, interrupted), k2, now);
    SoloClosing(w, p, k3, now, done, interrupted);
  }

  lemma SoloRest(w: World, p: Pid, k: State, now: int)
    requires p in w.pcs
    ensures Solo(Moved(w, p, Deciding(GetMode(k.done, k.total)), k), p, now) ==
      Solo(Moved(w, p, Deciding(GetSetEnded(k.done, k.mode != Ligado || k.done < k.total || k.failed > 0)), k), p, now)
  {
    hide Rank, Solo, Moved;
    SoloFrom(w, p, Deciding(GetMode(k.done, k.total)), k, now);
    if k.mode == Ligado && k.done >= k.total {
      SoloFrom(w, p, Deciding(GetFailed(k.done, k.total)), k, now);
    }
  }

  lemma SoloVerdict(w: World, p: Pid, k: State, now: int)
    requires p in w.pcs
    ensures Solo(Moved(w, p, Deciding(GetState(k.done, k.total)), k), p, now) ==
      Solo(Moved(w, p, Deciding(GetSetEnded(k.done, Interrupted(k))), k), p, now)
  {
    SoloFrom(w, p, Deciding(GetState(k.done, k.total)), k, now);
    if k.phase == Running {
      SoloRest(w, p, k, now);
    }
  }

  /** The reads decide "interrupted" exactly as the atomic verb does. */
  lemma SoloReads(w: World, p: Pid, k: State, now: int)
    requires p in w.pcs
    ensures Solo(Moved(w, p, Deciding(GetDone), k), p, now) ==
      Solo(Moved(w, p, Deciding(GetSetEnded(k.done, Interrupted(k))), k), p, now)
  {
    SoloFrom(w, p, Deciding(GetDone), k, now);
    SoloFrom(w, p, Deciding(GetTotal(k.done)), k, now);
    SoloVerdict(w, p, k, now);
  }

  lemma SoloDeciding(w: World, p: Pid, k: State, now: int)
    requires p in w.pcs
    ensures Solo(Moved(w, p, Deciding(GetDone), k), p, now) ==
      if k.ended then Moved(w, p, Returned(false), k)
      else Moved(w, p, Returned(true), Completed(k, w.run, true, now))
  {
    SoloReads(w, p, k, now);
    SoloFrom(w, p, Deciding(GetSetEnded(k.done, Interrupted(k))), k, now);
    SoloWinning(w, p, k.(ended := true), now, k.done, Interrupted(k));
  }

  lemma SoloMaybeComplete(w: World, p: Pid, k: State, now: int)
    requires p in w.pcs
    ensures var (k', won) := MaybeComplete(k, w.run, true, now);
      Solo(Moved(w, p, ReadInflight, k), p, now) == Moved(w, p, Returned(won), k')
  {
    SoloFrom(w, p, ReadInflight, k, now);
    SoloFrom(w, p, ReadDispatch, k, now);
    SoloDeciding(w, p, k, now);
  }

  lemma SoloDecr(w: World, p: Pid, k: State, now: int)
    requires p in w.pcs
    ensures var (k', won) := MaybeComplete(k.(inflight := Max(0, k.inflight - 1)), w.run, true, now);
      Solo(Moved(w, p, Reporting(DecrInflight), k), p, now) == Moved(w, p, Returned(won), k')
  {
    var k1 := k.(inflight := k.inflight - 1);
    SoloFrom(w, p, Reporting(DecrInflight), k, now);
    SoloFrom(w, p, Clamping, k1, now);
    SoloMaybeComplete(w, p, k.(inflight := Max(0, k.inflight - 1)), now);
  }

  /** producer_done, command by command, is the atomic producer_done. */
  lemma SoloProducerDone(w: World, p: Pid, failed: bool, now: int)
    requires Is(w, p, Working) && p != ORCHESTRATOR
    ensures var (k, won) := ProducerDone(w.keys, Some(w.run), failed, true, now);
      var w' := Solo(Next(w, BeginDone(p, failed)), p, now);
      w'.keys == k && w'.pcs == w.pcs[p := if HasRun(w) then Returned(won) else Ignored]
  {
    if HasRun(w) {
      var u := Next(w, BeginDone(p, failed)).(pcs := w.pcs);
      if failed {
        SoloFrom(u, p, Reporting(IncrFailed), w.keys, now);
        SoloDecr(u, p, w.keys.(failed := w.keys.failed + 1), now);
      } else {
        SoloDecr(u, p, w.keys, now);
      }
    }
  }

  /** dispatch_finished, command by command, is the atomic dispatch_finished. */
  lemma SoloDispatchFinished(w: World, now: int)
    requires Is(w, ORCHESTRATOR, Working)
    ensures var (k, won) := DispatchFinished(w.keys, Some(w.run), true, now);
      Solo(Next(w, BeginFinish), ORCHESTRATOR, now) == Moved(w, ORCHESTRATOR, Returned(won), k)
  {
    if HasRun(w) {
      SoloFrom(w, ORCHESTRATOR, Closing, w.keys, now);
      SoloMaybeComplete(w, ORCHESTRATOR, w.keys.(dispatchDone := true), now);
    }
  }

  /** claim_producer: the child is in flight iff the atomic claim counted it. */
  lemma SoloClaim(w: World, p: Pid, child: Pid, now: int)
    requires Is(w, p, Working) && child !in w.pcs
    ensures var (k, claimed) := ClaimProducer(w.keys, Some(w.run));
      Next(Solo(Next(w, BeginClaim(p)), p, now), Admit(p, child)) ==
        if claimed.Some? then w.(keys := k, pcs := w.pcs[child := Working]) else w
  {
    SoloHere(w, p, Working);
    if HasRun(w) {
      SoloFrom(w, p, Claiming(GetEnded), w.keys, now);
      assert w.pcs[p := Claiming(IncrInflight)][p := Working] == w.pcs;
    }
  }

  /** progress. */
  lemma SoloProgress(w: World, p: Pid, n: nat, uf: Option<string>, now: int)
    requires Is(w, p, Working)
    ensures Solo(Next(w, BeginProgress(p, n, uf)), p, now) ==
      w.(keys := Progress(w.keys, Some(w.run), n, uf))
  {
    SoloHere(w, p, Working);
    if HasRun(w) {
      SoloFrom(w, p, Progressing(GetEndedFor(n, uf)), w.keys, now);
      if uf.Some? {
        SoloFrom(w, p, Progressing(SetUf(n, uf.value)), w.keys, now);
      }
      SoloFrom(w, p, Progressing(IncrDone(n)), w.keys.(currentUf := if uf.Some? then uf else w.keys.currentUf), now);
    }
  }

  /** abort. */
  lemma SoloAbort(w: World, now: int)
    requires Is(w, ORCHESTRATOR, Working)
    ensures Solo(Next(w, BeginAbort), ORCHESTRATOR, now) ==
      Moved(w, ORCHESTRATOR, Aborting(Aborted), Abort(w.keys, w.run, true, now))
  {
    hide Rank, Finalized;
    if HasRun(w) {
      SoloAbortsRun(w, now);
    } else {
      SoloAbortsRow(w, w.keys, now);
    }
  }

  lemma SoloAbortsRun(w: World, now: int)
    requires ORCHESTRATOR in w.pcs && HasRun(w)
    ensures Solo(Moved(w, ORCHESTRATOR, Aborting(AbortIdle), w.keys), ORCHESTRATOR, now) ==
      Moved(w, ORCHESTRATOR, Aborting(Aborted), Abort(w.keys, w.run, true, now))
  {
    hide Rank, Finalized;
    var o, k := ORCHESTRATOR, w.keys;
    var k1 := k.(phase := Idle);
    var k2 := k1.(currentUf := None);
    assert NextPC(Aborting(AbortIdle), k) == Aborting(AbortUf);
    assert NextPC(Aborting(AbortUf), k1) == Aborting(AbortEnabled);
    SoloFrom(w, o, Aborting(AbortIdle), k, now);
    SoloFrom(w, o, Aborting(AbortUf), k1, now);
    SoloAbortsKeys(w, k2, now);
    hide Solo, NextPC;
  }

  lemma SoloAbortsKeys(w: World, k: State, now: int)
    requires ORCHESTRATOR in w.pcs
    ensures var k' := k.(enabled := false, runId := None);
      Solo(Moved(w, ORCHESTRATOR, Aborting(AbortEnabled), k), ORCHESTRATOR, now) ==
      Moved(w, ORCHESTRATOR, Aborting(Aborted), k'.(rows := Finalized(k.rows, true, w.run, Falha, 0, now)))
  {
    hide Rank, Finalized;
    SoloFrom(w, ORCHESTRATOR, Aborting(AbortEnabled), k, now);
    SoloFrom(w, ORCHESTRATOR, Aborting(AbortRunId), k.(enabled := false), now);
    SoloAbortsRow(w, k.(enabled := false).(runId := None), now);
    hide Solo;
  }

  lemma SoloAbortsRow(w: World, k: State, now: int)
    requires ORCHESTRATOR in w.pcs
    ensures Solo(Moved(w, ORCHESTRATOR, Aborting(AbortRow), k), ORCHESTRATOR, now) ==
      Moved(w, ORCHESTRATOR, Aborting(Aborted), k.(rows := Finalized(k.rows, true, w.run, Falha, 0, now)))
  {
    hide Rank, Finalized;
    SoloFrom(w, ORCHESTRATOR, Aborting(AbortRow), k, now);
  }

  /** The operators' commands are those of stop, of a pause with a reason, and of LIGADO. */
  lemma SoloOperators(w: World, reason: string, provider: Option<string>, action: Option<string>, at: int)
    ensures w.keys.phase == Running ==> Next(w, OpStop) == w.(keys := RequestStop(w.keys).0)
    ensures w.keys.reason.None? || action.Some? ==>
      Next(Next(w, OpReason(Some(Pause(reason, provider, action, at)))), OpMode(true)) ==
        w.(keys := PauseWithReason(w.keys, reason, provider, action, at))
    ensures Next(Next(w, OpMode(false)), OpReason(None)) == w.(keys := WithMode(w.keys, Ligado, false))
  {
  }
}
