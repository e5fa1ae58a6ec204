/**
 What each verb of the engine answers and writes, key by key: who is heard, what stays, and what a
 row is left with.
 */
module EngineVerbs {
  import opened Common
  import opened Engine

  /** A call is heard when some run is current and it names that run, or none. */
  predicate Heard(s: State, rid: Option<RunId>) {
    s.runId.Some? && (rid.None? || rid.value == s.runId.value)
  }

  lemma CurrentIffHeard(s: State, rid: Option<RunId>)
    ensures Current(s, rid).Some? <==> Heard(s, rid)
    ensures Heard(s, rid) ==> Current(s, rid) == s.runId
  {
  }

  /** A row that is there is closed with its status, units and end; its plan stays. */
  predicate Closed(before: Row, after: Row, status: Status, units: int, at: int) {
    && after.status == status && after.dispatched == units && after.endedAt == Some(at)
    && after.ufs == before.ufs && after.source == before.source && after.depth == before.depth
    && after.lane == before.lane && after.total == before.total
  }

  lemma FinalizedCloses(rows: Rows, db: bool, id: RunId, status: Status, units: int, now: int)
    ensures var after := Finalized(rows, db, id, status, units, now);
      && after.Keys == rows.Keys && (forall o | o in rows && o != id :: after[o] == rows[o])
      && (id in rows && db ==> Closed(rows[id], after[id], status, units, now))
      && (id in rows && !db ==> after[id] == rows[id])
  {
  }

  /** claim: a producer more, exactly when the run is heard and has not ended. */
  lemma ClaimIs(s: State, rid: Option<RunId>)
    ensures var (k, claimed) := ClaimProducer(s, rid);
      && (claimed.Some? <==> Heard(s, rid) && !s.ended) && (claimed.Some? ==> claimed == s.runId)
      && k.inflight == s.inflight + (if claimed.Some? then 1 else 0) && k == s.(inflight := k.inflight)
  {
  }

  /** progress: the units and the UF, exactly then. */
  lemma ProgressIs(s: State, rid: Option<RunId>, n: nat, uf: Option<string>)
    ensures var k := Progress(s, rid, n, uf);
      && (Heard(s, rid) && !s.ended ==>
            k.done == s.done + n && (uf.Some? ==> k.currentUf == uf) && (uf.None? ==> k.currentUf == s.currentUf))
      && (!Heard(s, rid) || s.ended ==> k == s)
      && k == s.(done := k.done, currentUf := k.currentUf)
  {
  }

  /** stop: a running engine stops, and only that one says so. */
  lemma StopIs(s: State)
    ensures var (k, asked) := RequestStop(s);
      && (asked <==> s.phase == Running) && (asked ==> k.phase == Stopping) && (!asked ==> k == s)
      && k == s.(phase := k.phase)
  {
  }

  /** abort: the current run is taken off; any named row becomes "falha" with nothing dispatched. */
  lemma AbortIs(s: State, id: RunId, db: bool, now: int)
    ensures var k := Abort(s, id, db, now);
      && (s.runId == Some(id) ==>
            k.phase == Idle && k.currentUf.None? && !k.enabled && k.runId.None?
            && k == s.(phase := Idle, currentUf := None, enabled := false, runId := None, rows := k.rows))
      && (s.runId != Some(id) ==> k == s.(rows := k.rows))
      && k.rows.Keys == s.rows.Keys && (forall o | o in s.rows && o != id :: k.rows[o] == s.rows[o])
      && (id in s.rows && db ==> Closed(s.rows[id], k.rows[id], Falha, 0, now))
  {
    FinalizedCloses(s.rows, db, id, Falha, 0, now);
    hide Finalized;
  }

  /** The run is due: dispatch is over, nobody is in flight, and it has not ended yet. */
  predicate Due(s: State) {
    s.dispatchDone && s.inflight <= 0 && !s.ended
  }

  /** A clean run: still running, LIGADO, all units dispatched, nobody failed. */
  predicate Clean(s: State) {
    s.phase == Running && s.mode == Ligado && s.done >= s.total && s.failed <= 0
  }

  /** completion: exactly when the run is due; the motor goes off unless a reason stands; the row is
      "concluido" exactly for a clean run. */
  lemma CompletionIs(s: State, id: RunId, db: bool, now: int)
    ensures var (k, won) := MaybeComplete(s, id, db, now);
      && (won <==> Due(s)) && (!won ==> k == s)
      && (won ==>
            && k.ended && k.phase == Idle && k.currentUf.None? && !k.enabled
            && (s.reason.None? ==> k.mode == Desligado) && (s.reason.Some? ==> k.mode == s.mode)
            && k == s.(ended := true, phase := Idle, currentUf := None, enabled := false, mode := k.mode,
                       rows := k.rows)
            && k.rows.Keys == s.rows.Keys && (forall o | o in s.rows && o != id :: k.rows[o] == s.rows[o])
            && (id in s.rows && db ==>
                  Closed(s.rows[id], k.rows[id], if Clean(s) then Concluido else Parcial, s.done, now)))
  {
    FinalizedCloses(s.rows, db, id, if Interrupted(s) then Parcial else Concluido, s.done, now);
    hide Finalized;
  }

  /** producer_done: heard only from a producer that names the current run; one in flight less, never
      below none, one failure more if it failed; and it completes the run if that makes it due. */
  lemma DoneIs(s: State, rid: Option<RunId>, failed: bool, db: bool, now: int)
    ensures var (k, won) := ProducerDone(s, rid, failed, db, now);
      if rid.None? || !Heard(s, rid) then k == s && !won
      else
        var left := if s.inflight > 0 then s.inflight - 1 else 0;
        var paid := s.(inflight := left, failed := s.failed + if failed then 1 else 0);
        && (won <==> s.dispatchDone && s.inflight <= 1 && !s.ended)
        && k == (if won then MaybeComplete(paid, s.runId.value, db, now).0 else paid)
  {
    hide Completed;
  }

  /** dispatch_finished: the mark, and it completes the run if that makes it due. */
  lemma FinishIs(s: State, rid: Option<RunId>, db: bool, now: int)
    ensures var (k, won) := DispatchFinished(s, rid, db, now);
      if !Heard(s, rid) then k == s && !won
      else
        var marked := s.(dispatchDone := true);
        && (won <==> s.inflight <= 0 && !s.ended)
        && k == (if won then MaybeComplete(marked, s.runId.value, db, now).0 else marked)
  {
    hide Completed;
  }

  /** mode: LIGADO and DESLIGADO forget the reason; DESLIGADO also idles the engine and forgets who is
      in flight; the durable copy follows only with a session. */
  lemma ModeIs(s: State, mode: Mode, db: bool)
    ensures var k := WithMode(s, mode, db);
      && k.mode == mode && k.durableMode == (if db then Some(mode) else s.durableMode)
      && (mode == Pausado ==> k.reason == s.reason) && (mode != Pausado ==> k.reason.None?)
      && (mode == Desligado ==> k.phase == Idle && k.currentUf.None? && !k.enabled && k.inflight == 0)
      && (mode != Desligado ==> k == s.(mode := mode, durableMode := k.durableMode, reason := k.reason))
      && k == s.(mode := mode, durableMode := k.durableMode, reason := k.reason, phase := k.phase,
                 currentUf := k.currentUf, enabled := k.enabled, inflight := k.inflight)
  {
  }

  /** pause: PAUSADO with the reason, its provider and its time; the action named, or else the one
      recorded; no durable copy. */
  lemma PauseIs(s: State, reason: string, provider: Option<string>, action: Option<string>, at: int)
    ensures var k := PauseWithReason(s, reason, provider, action, at);
      && k.mode == Pausado && k.reason.Some?
      && k.reason.value.reason == reason && k.reason.value.provider == provider && k.reason.value.at == at
      && (action.Some? ==> k.reason.value.action == action)
      && (action.None? && s.reason.Some? ==> k.reason.value.action == s.reason.value.action)
      && (action.None? && s.reason.None? ==> k.reason.value.action.None?)
      && k == s.(mode := Pausado, reason := k.reason)
  {
  }
}
