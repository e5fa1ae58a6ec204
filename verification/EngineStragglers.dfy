/**
 Generations at command level. A verb reads the token in its first command only, so a start may
 replace the run while participants of the old one are between two commands. Those stragglers
 issue the rest of their commands on the new run's keys, in any order with everybody else's.
 */
module EngineStragglers {
  import opened Common
  import opened Engine
  import opened EngineCommands
  import opened EngineSolo
  import opened EngineRace

  /** The current generation and the participants of any number of replaced ones. There is one set
      of keys, the current run's; what an old world holds as its own is out of date. */
  datatype Generations = Generations(current: World, replaced: seq<World>)

  /** A command of the current run or of an operator, or one of the i-th replaced run. */
  datatype Turn = Present(l: Label) | Straggler(i: nat, l: Label)

  predicate ByOperator(l: Label) {
    l.OpStop? || l.OpMode? || l.OpReason?
  }

  /** The i-th replaced run as its participants see it: with the keys of today. */
  function Seen(g: Generations, i: nat): World
    requires i < |g.replaced|
  {
    g.replaced[i].(keys := g.current.keys)
  }

  function Step(g: Generations, t: Turn): Generations {
    match t
    case Present(l) => g.(current := Next(g.current, l))
    case Straggler(i, l) =>
      if i < |g.replaced| && !ByOperator(l) then
        var o := Next(Seen(g, i), l);
        Generations(g.current.(keys := o.keys), g.replaced[i := o])
      else g
  }

  function Steps(g: Generations, ts: seq<Turn>): Generations {
    if ts == [] then g else Step(Steps(g, ts[..|ts| - 1]), ts[|ts| - 1])
  }

  /** The world right after a start that replaces these runs. */
  function Replacing(before: State, req: Request, id: RunId, now: int, olds: seq<World>): Generations {
    Generations(Opened(before, req, id, now), olds)
  }

  /** What belongs to a run: every key, and its own row. */
  function Own(k: State, run: RunId): State {
    k.(rows := if run in k.rows then map[run := k.rows[run]] else map[])
  }

  /** A straggler's command changes a key or the row of the current run. */
  predicate Harms(g: Generations, t: Turn) {
    t.Straggler? && Own(Step(g, t).current.keys, g.current.run) != Own(g.current.keys, g.current.run)
  }

  /** Nothing left to write but its own run's row, or a write of nothing. A verb not begun yet will
      read the new token. */
  predicate Spent(pc: PC) {
    || pc.Working? || pc.Returned? || pc.Ignored?
    || (pc.Winning? && pc.win.WriteRow?) || pc == Aborting(AbortRow) || pc == Aborting(Aborted)
    || pc == Progressing(IncrDone(0)) || pc == Progressing(GetEndedFor(0, None))
  }

  predicate UnspentAt(olds: seq<World>, i: nat, p: Pid) {
    i < |olds| && p in olds[i].pcs && !Spent(olds[i].pcs[p])
  }

  predicate SpentWorld(o: World) {
    forall p | p in o.pcs :: Spent(o.pcs[p])
  }

  predicate AllSpent(olds: seq<World>) {
    forall i | 0 <= i < |olds| :: SpentWorld(olds[i])
  }

  /** The token is the current run's or gone. */
  predicate Separate(g: Generations) {
    forall i | 0 <= i < |g.replaced| ::
      g.replaced[i].run != g.current.run && g.current.keys.runId != Some(g.replaced[i].run)
  }

  // ---- Spent stragglers are invisible -------------------------------------------------------

  lemma TokenStep(w: World, l: Label)
    ensures Next(w, l).run == w.run
    ensures Next(w, l).keys.runId == w.keys.runId || Next(w, l).keys.runId.None?
  {
    if l.Advance? && l.p in w.pcs { CommandWrites(w.pcs[l.p], w.keys, w.run, l.now); }
    hide NextKeys, NextPC;
  }

  /** A spent participant's command leaves every key and every row but its own run's, and leaves
      it spent. */
  lemma SpentCommand(pc: PC, k: State, gen: RunId, run: RunId, now: int)
    requires Spent(pc) && gen != run
    ensures Spent(NextPC(pc, k)) && Own(NextKeys(pc, k, gen, now), run) == Own(k, run)
  {
  }

  lemma SpentStep(o: World, l: Label, run: RunId)
    requires SpentWorld(o) && o.run != run && !HasRun(o) && !ByOperator(l)
    ensures SpentWorld(Next(o, l)) && Own(Next(o, l).keys, run) == Own(o.keys, run)
  {
    if l.Advance? && l.p in o.pcs { SpentCommand(o.pcs[l.p], o.keys, o.run, run, l.now); }
    hide NextKeys, NextPC, Own;
  }

  /** One and the same run, up to the rows of other runs. */
  predicate SameRun(a: World, b: World) {
    a.run == b.run && a.pcs == b.pcs && a.failedReports == b.failedReports && Own(a.keys, a.run) == Own(b.keys, a.run)
  }

  predicate SameRow(a: Rows, b: Rows, run: RunId) {
    (run in a <==> run in b) && (run in a ==> a[run] == b[run])
  }

  lemma OwnIsAllButRows(a: State, b: State, run: RunId)
    ensures Own(a, run) == Own(b, run) <==> b == a.(rows := b.rows) && SameRow(a.rows, b.rows, run)
  {
    if Own(a, run) == Own(b, run) {
      assert run in Own(a, run).rows <==> run in Own(b, run).rows;
      assert run in a.rows ==> Own(a, run).rows[run] == a.rows[run] && Own(b, run).rows[run] == b.rows[run];
      assert b == Own(b, run).(rows := b.rows) && a == Own(a, run).(rows := a.rows);
    }
  }

  lemma SamePC(pc: PC, k: State, rows: Rows)
    ensures NextPC(pc, k.(rows := rows)) == NextPC(pc, k)
  {
  }

  lemma SameKeys(pc: PC, k: State, rows: Rows, run: RunId, now: int)
    requires SameRow(k.rows, rows, run)
    ensures var a, b := NextKeys(pc, k, run, now), NextKeys(pc, k.(rows := rows), run, now);
      b == a.(rows := b.rows) && SameRow(a.rows, b.rows, run)
  {
    if (pc.Winning? && pc.win.WriteRow?) || pc == Aborting(AbortRow) {
      RowWrites(pc, k, rows, run, now);
    } else {
      OtherWrites(pc, k, rows, run, now);
    }
    hide NextKeys;
  }

  lemma RowWrites(pc: PC, k: State, rows: Rows, run: RunId, now: int)
    requires SameRow(k.rows, rows, run) && ((pc.Winning? && pc.win.WriteRow?) || pc == Aborting(AbortRow))
    ensures var a, b := NextKeys(pc, k, run, now), NextKeys(pc, k.(rows := rows), run, now);
      b == a.(rows := b.rows) && SameRow(a.rows, b.rows, run)
  {
  }

  lemma OtherWrites(pc: PC, k: State, rows: Rows, run: RunId, now: int)
    requires !(pc.Winning? && pc.win.WriteRow?) && pc != Aborting(AbortRow)
    ensures var a := NextKeys(pc, k, run, now);
      NextKeys(pc, k.(rows := rows), run, now) == a.(rows := rows) && a.rows == k.rows
  {
    hide NextKeys;
    if pc.Winning? {
      WinWrites(pc, k, rows, run, now);
    } else if pc.Aborting? {
      AbortWrites(pc, k, rows, run, now);
    } else {
      EarlyWrites(pc, k, rows, run, now);
    }
  }

  lemma EarlyWrites(pc: PC, k: State, rows: Rows, run: RunId, now: int)
    requires !pc.Winning? && !pc.Aborting?
    ensures var a := NextKeys(pc, k, run, now);
      NextKeys(pc, k.(rows := rows), run, now) == a.(rows := rows) && a.rows == k.rows
  {
    hide NextKeys;
    if pc.Progressing? || pc.Reporting? {
      CountWrites(pc, k, rows, run, now);
    } else {
      FlagWrites(pc, k, rows, run, now);
    }
  }

  lemma CountWrites(pc: PC, k: State, rows: Rows, run: RunId, now: int)
    requires pc.Progressing? || pc.Reporting?
    ensures var a := NextKeys(pc, k, run, now);
      NextKeys(pc, k.(rows := rows), run, now) == a.(rows := rows) && a.rows == k.rows
  {
    match pc
    case Progressing(_) =>
    case Reporting(_) =>
  }

  lemma FlagWrites(pc: PC, k: State, rows: Rows, run: RunId, now: int)
    requires !pc.Progressing? && !pc.Reporting? && !pc.Winning? && !pc.Aborting?
    ensures var a := NextKeys(pc, k, run, now);
      NextKeys(pc, k.(rows := rows), run, now) == a.(rows := rows) && a.rows == k.rows
  {
    match pc
    case Clamping =>
    case Closing =>
    case Deciding(_) =>
    case _ =>
  }

  lemma WinWrites(pc: PC, k: State, rows: Rows, run: RunId, now: int)
    requires pc.Winning? && !pc.win.WriteRow?
    ensures var a := NextKeys(pc, k, run, now);
      NextKeys(pc, k.(rows := rows), run, now) == a.(rows := rows) && a.rows == k.rows
  {
    hide Finalized;
    match pc.win
    case SetIdle =>
    case DelUf =>
    case SetEnabled =>
    case GetReason =>
    case SetModeOff =>
  }

  lemma AbortWrites(pc: PC, k: State, rows: Rows, run: RunId, now: int)
    requires pc.Aborting? && !pc.abort.AbortRow?
    ensures var a := NextKeys(pc, k, run, now);
      NextKeys(pc, k.(rows := rows), run, now) == a.(rows := rows) && a.rows == k.rows
  {
    hide Finalized;
    match pc.abort
    case AbortIdle =>
    case AbortUf =>
    case AbortEnabled =>
    case AbortRunId =>
    case Aborted =>
  }

  lemma SameCommand(pc: PC, a: State, b: State, run: RunId, now: int)
    requires Own(a, run) == Own(b, run)
    ensures NextPC(pc, a) == NextPC(pc, b)
    ensures Own(NextKeys(pc, a, run, now), run) == Own(NextKeys(pc, b, run, now), run)
  {
    OwnIsAllButRows(a, b, run);
    SamePC(pc, a, b.rows);
    SameKeys(pc, a, b.rows, run, now);
    OwnIsAllButRows(NextKeys(pc, a, run, now), NextKeys(pc, b, run, now), run);
    hide NextPC, NextKeys, Own, SameRow;
  }

  lemma SameStep(a: World, b: World, l: Label)
    requires SameRun(a, b)
    ensures SameRun(Next(a, l), Next(b, l))
  {
    if l.Advance? {
      if l.p in a.pcs { SameCommand(a.pcs[l.p], a.keys, b.keys, a.run, l.now); }
      hide NextKeys, NextPC, Own;
    } else if l.Admit? || ByOperator(l) {
      OwnIsAllButRows(a.keys, b.keys, a.run);
      WritesTheSame(a, b, l);
      hide Next;
    } else {
      OwnIsAllButRows(a.keys, b.keys, a.run);
      hide NextKeys, NextPC, Own;
    }
  }

  lemma WritesTheSame(a: World, b: World, l: Label)
    requires SameRun(a, b) && (l.Admit? || ByOperator(l)) && b.keys == a.keys.(rows := b.keys.rows)
    ensures SameRun(Next(a, l), Next(b, l))
  {
    hide NextKeys, NextPC;
  }

  /** The current run's own part of a trace. */
  function OwnLabels(ts: seq<Turn>): seq<Label> {
    if ts == [] then []
    else
      var before, t := OwnLabels(ts[..|ts| - 1]), ts[|ts| - 1];
      if t.Present? then before + [t.l] else before
  }

  lemma SpentStragglerStep(g: Generations, w: World, t: Turn)
    requires Separate(g) && AllSpent(g.replaced) && SameRun(g.current, w)
    ensures Separate(Step(g, t)) && AllSpent(Step(g, t).replaced) && !Harms(g, t)
    ensures SameRun(Step(g, t).current, if t.Present? then Next(w, t.l) else w)
  {
    if t.Present? {
      SameStep(g.current, w, t.l);
      TokenStep(g.current, t.l);
    } else if t.i < |g.replaced| && !ByOperator(t.l) {
      assert SpentWorld(Seen(g, t.i)) by { assert SpentWorld(g.replaced[t.i]); }
      SpentStep(Seen(g, t.i), t.l, g.current.run);
      TokenStep(Seen(g, t.i), t.l);
    }
    hide Next, SpentWorld, Own;
  }

  /** With every straggler spent at the start, whatever they still do, the current run goes as if
      they were not there: through a run of the one-generation machine. */
  lemma {:induction false} SpentStragglersAreInvisible(g: Generations, ts: seq<Turn>)
    requires Separate(g) && AllSpent(g.replaced)
    ensures var g' := Steps(g, ts);
      Separate(g') && AllSpent(g'.replaced) && SameRun(g'.current, Run(g.current, OwnLabels(ts)))
  {
    if ts != [] {
      var init, t := ts[..|ts| - 1], ts[|ts| - 1];
      SpentStragglersAreInvisible(g, init);
      SpentStragglerStep(Steps(g, init), Run(g.current, OwnLabels(init)), t);
      if t.Present? { RunOne(g.current, OwnLabels(init), t.l); }
      hide Next, Step, SpentWorld, Own;
    }
  }

  lemma SeparateAtStart(before: State, req: Request, id: RunId, now: int, olds: seq<World>)
    requires FreshStart(before, req, id) && forall i | 0 <= i < |olds| :: olds[i].run != id
    ensures Separate(Replacing(before, req, id, now, olds))
  {
  }

  /** So all that one generation keeps, a generation that only has spent stragglers keeps: its
      in-flight key is exact, at most one of its verbs wins, none of its completions is lost. */
  lemma NewRunKeepsItsGuarantees(before: State, req: Request, id: RunId, now: int, olds: seq<World>, ts: seq<Turn>)
    requires FreshStart(before, req, id) && (forall i | 0 <= i < |olds| :: olds[i].run != id) && AllSpent(olds)
    ensures var w := Steps(Replacing(before, req, id, now, olds), ts).current;
      && w.keys.inflight == |InFlight(w.pcs)|
      && (forall p, q | Is(w, p, Returned(true)) && Is(w, q, Returned(true)) :: p == q)
      && (w.keys.dispatchDone && (forall p | p in w.pcs :: AtRest(w.pcs[p])) &&
          (forall p | p in w.pcs && p != ORCHESTRATOR :: w.pcs[p].Returned?) ==>
            w.keys.ended && id in w.keys.rows && w.keys.rows[id].status != InProgress)
  {
    var g, tr := Replacing(before, req, id, now, olds), OwnLabels(ts);
    SeparateAtStart(before, req, id, now, olds);
    SpentStragglersAreInvisible(g, ts);
    var w, w' := Steps(g, ts).current, Run(g.current, tr);
    RunIdIsConstant(g.current, tr);
    OwnIsAllButRows(w.keys, w'.keys, id);
    InFlightKeyIsExact(before, req, id, now, tr);
    forall p, q | Is(w, p, Returned(true)) && Is(w, q, Returned(true)) ensures p == q {
      AtMostOneVerbWins(before, req, id, now, tr, p, q);
    }
    if w.keys.dispatchDone && (forall p | p in w.pcs :: AtRest(w.pcs[p])) &&
       (forall p | p in w.pcs && p != ORCHESTRATOR :: w.pcs[p].Returned?) {
      NoLostCompletion(before, req, id, now, tr);
    }
  }

  // ---- Every other straggler can do harm ----------------------------------------------------

  /** The keys a start leaves, as far as a straggler's commands look at them. */
  predicate Young(k: State) {
    && k.phase == Running && k.mode == Ligado && k.enabled && k.runId.Some? && k.reason.None? && k.currentUf.None?
    && k.inflight == 0 && !k.ended
  }

  /** Its own commands, one after another, come to a write on young keys. */
  predicate Writes(pc: PC) {
    || pc.Claiming? || pc.Reporting? || pc.Deciding? || (pc.Progressing? && !Spent(pc))
    || (pc.Winning? && !Spent(pc)) || (pc.Aborting? && !Spent(pc))
  }

  lemma WritesSoon(pc: PC, k: State, gen: RunId, run: RunId)
    requires Writes(pc) && pc != Claiming(IncrInflight) && Young(k)
    ensures Own(NextKeys(pc, k, gen, 0), run) != Own(k, run) ||
      (NextKeys(pc, k, gen, 0) == k && Writes(NextPC(pc, k)) && Rank(NextPC(pc, k)) < Rank(pc))
  {
  }

  lemma StragglerAdvances(g: Generations, i: nat, p: Pid)
    requires i < |g.replaced| && p in g.replaced[i].pcs
    ensures var pc, k, o := g.replaced[i].pcs[p], g.current.keys, g.replaced[i];
      var g' := Step(g, Straggler(i, Advance(p, 0)));
      && |g'.replaced| == |g.replaced| && g'.current == g.current.(keys := NextKeys(pc, k, o.run, 0))
      && p in g'.replaced[i].pcs && g'.replaced[i].pcs[p] == NextPC(pc, k)
  {
    hide NextKeys, NextPC;
  }

  lemma OneStep(g: Generations, t: Turn)
    ensures Steps(g, [t]) == Step(g, t)
  {
    assert [t][..0] == [];
  }

  lemma {:induction false} StepsConcat(g: Generations, a: seq<Turn>, b: seq<Turn>)
    ensures Steps(g, a + b) == Steps(Steps(g, a), b)
  {
    if b == [] {
      assert a + b == a;
    } else {
      var init := b[..|b| - 1];
      assert (a + b)[..|a + b| - 1] == a + init;
      StepsConcat(g, a, init);
    }
  }

  ghost predicate CanHarm(g: Generations) {
    exists ts, t :: Harms(Steps(g, ts), t)
  }

  lemma HarmNow(g: Generations, t: Turn)
    requires Harms(g, t)
    ensures CanHarm(g)
  {
    assert Harms(Steps(g, []), t);
  }

  lemma HarmLater(g: Generations, first: seq<Turn>)
    requires CanHarm(Steps(g, first))
    ensures CanHarm(g)
  {
    var ts, t :| Harms(Steps(Steps(g, first), ts), t);
    StepsConcat(g, first, ts);
    assert Harms(Steps(g, first + ts), t);
  }

  lemma FreshPid(pcs: map<Pid, PC>) returns (p: Pid)
    ensures p !in pcs
  {
    p := 0;
    var seen: set<Pid> := {};
    while p in pcs
      invariant seen <= pcs.Keys && forall q: Pid :: q in seen <==> q < p
      decreases |pcs.Keys - seen|
    {
      assert p !in seen;
      assert pcs.Keys - (seen + {p}) < pcs.Keys - seen by { assert p in pcs.Keys - seen; }
      seen, p := seen + {p}, p + 1;
    }
  }

  lemma ClaimHarms(g: Generations, i: nat, p: Pid)
    requires i < |g.replaced| && Is(g.replaced[i], p, Claiming(IncrInflight))
    ensures CanHarm(g)
  {
    var child := FreshPid(g.replaced[i].pcs);
    var t := Straggler(i, Admit(p, child));
    assert Step(g, t).current.keys.inflight == g.current.keys.inflight + 1;
    HarmNow(g, t);
  }

  lemma {:induction false} WriterHarms(g: Generations, i: nat, p: Pid)
    requires i < |g.replaced| && p in g.replaced[i].pcs && Writes(g.replaced[i].pcs[p]) && Young(g.current.keys)
    ensures CanHarm(g)
    decreases Rank(g.replaced[i].pcs[p])
  {
    var pc, t := g.replaced[i].pcs[p], Straggler(i, Advance(p, 0));
    if pc == Claiming(IncrInflight) {
      ClaimHarms(g, i, p);
    } else {
      WritesSoon(pc, g.current.keys, g.replaced[i].run, g.current.run);
      StragglerAdvances(g, i, p);
      hide Step, NextKeys, NextPC, Own, Writes, Young, CanHarm, Rank;
      if Harms(g, t) {
        HarmNow(g, t);
      } else {
        WriterHarms(Step(g, t), i, p);
        OneStep(g, t);
        HarmLater(g, [t]);
      }
    }
  }

  predicate JustStarted(w: World) {
    Young(w.keys) && !w.keys.dispatchDone && Is(w, ORCHESTRATOR, Working) && HasRun(w)
  }

  function PresentTurns(tr: seq<Label>): seq<Turn> {
    seq(|tr|, i requires 0 <= i < |tr| => Present(tr[i]))
  }

  /** The current run's own runs are runs of the whole. */
  lemma {:induction false} PresentAlone(g: Generations, tr: seq<Label>)
    ensures Steps(g, PresentTurns(tr)) == g.(current := Run(g.current, tr))
  {
    if tr != [] {
      var init := tr[..|tr| - 1];
      PresentAlone(g, init);
      assert PresentTurns(tr)[..|tr| - 1] == PresentTurns(init);
    }
  }

  /** A clamp after the new run's first claim sets its counter back to zero. */
  lemma ClampHarms(g: Generations, i: nat, p: Pid)
    requires i < |g.replaced| && Is(g.replaced[i], p, Clamping) && JustStarted(g.current)
    ensures CanHarm(g)
  {
    var child := FreshPid(g.current.pcs);
    OrchestratorClaims(g.current, child);
    PresentAlone(g, ClaimLabels(child));
    var g1 := Steps(g, PresentTurns(ClaimLabels(child)));
    assert g1.current.keys.inflight == 1 && g1.replaced == g.replaced;
    hide Steps, Run, CanHarm;
    StragglerAdvances(g1, i, p);
    HarmNow(g1, Straggler(i, Advance(p, 0)));
    HarmLater(g, PresentTurns(ClaimLabels(child)));
  }

  function DispatchLabels(): seq<Label> {
    [BeginFinish, Advance(ORCHESTRATOR, 0)]
  }

  lemma DispatchEnds(w: World)
    requires JustStarted(w)
    ensures var w' := Run(w, DispatchLabels());
      Young(w'.keys) && w'.keys.dispatchDone
  {
    RunOne(w, [], BeginFinish);
    RunOne(w, [BeginFinish], Advance(ORCHESTRATOR, 0));
    assert [] + [BeginFinish] == [BeginFinish];
    assert [BeginFinish] + [Advance(ORCHESTRATOR, 0)] == DispatchLabels();
  }

  /** A straggler that read zero goes on to end the new run once its dispatch is done. */
  lemma ReaderHarms(g: Generations, i: nat, p: Pid)
    requires i < |g.replaced| && Is(g.replaced[i], p, ReadDispatch) && JustStarted(g.current)
    ensures CanHarm(g)
  {
    DispatchEnds(g.current);
    PresentAlone(g, DispatchLabels());
    var g1 := Steps(g, PresentTurns(DispatchLabels()));
    assert g1.replaced == g.replaced && Young(g1.current.keys) && g1.current.keys.dispatchDone;
    hide Steps, Run, CanHarm, Young;
    StragglerAdvances(g1, i, p);
    var t := Straggler(i, Advance(p, 0));
    WriterHarms(Step(g1, t), i, p);
    OneStep(g1, t);
    HarmLater(g1, [t]);
    HarmLater(g, PresentTurns(DispatchLabels()));
  }

  lemma ZeroReaderHarms(g: Generations, i: nat, p: Pid)
    requires i < |g.replaced| && Is(g.replaced[i], p, ReadInflight) && JustStarted(g.current)
    ensures CanHarm(g)
  {
    var t := Straggler(i, Advance(p, 0));
    StragglerAdvances(g, i, p);
    ReaderHarms(Step(g, t), i, p);
    OneStep(g, t);
    HarmLater(g, [t]);
  }

  lemma UnspentHarms(g: Generations, i: nat, p: Pid)
    requires UnspentAt(g.replaced, i, p) && JustStarted(g.current)
    ensures CanHarm(g)
  {
    var pc := g.replaced[i].pcs[p];
    hide CanHarm;
    match pc
    case Clamping => ClampHarms(g, i, p);
    case ReadInflight => ZeroReaderHarms(g, i, p);
    case ReadDispatch => ReaderHarms(g, i, p);
    case Closing =>
      StragglerAdvances(g, i, p);
      HarmNow(g, Straggler(i, Advance(p, 0)));
    case _ => WriterHarms(g, i, p);
  }

  lemma SpentNeverHarm(g: Generations, ts: seq<Turn>, t: Turn)
    requires Separate(g) && AllSpent(g.replaced)
    ensures !Harms(Steps(g, ts), t)
  {
    SpentStragglersAreInvisible(g, ts);
    SpentStragglerStep(Steps(g, ts), Run(g.current, OwnLabels(ts)), t);
    hide Harms, AllSpent, SameRun;
  }

  /** The exact condition: after a start, some interleaving lets a participant of a replaced run
      change a key or the row of the new run if and only if one of them was stopped, by the start,
      with a command still to come that writes something. */
  lemma StragglersAreHarmlessIffSpent(before: State, req: Request, id: RunId, now: int, olds: seq<World>)
    requires FreshStart(before, req, id) && forall i | 0 <= i < |olds| :: olds[i].run != id
    ensures CanHarm(Replacing(before, req, id, now, olds)) <==> exists i, p :: UnspentAt(olds, i, p)
  {
    var g := Replacing(before, req, id, now, olds);
    SeparateAtStart(before, req, id, now, olds);
    if i, p :| UnspentAt(olds, i, p) {
      UnspentHarms(g, i, p);
    } else {
      assert AllSpent(olds) by {
        forall i, p | 0 <= i < |olds| && p in olds[i].pcs ensures Spent(olds[i].pcs[p]) {
          assert !UnspentAt(olds, i, p);
        }
      }
      hide AllSpent, Harms, Separate;
      forall ts, t ensures !Harms(Steps(g, ts), t) { SpentNeverHarm(g, ts, t); }
    }
  }

  // ---- On whole runs ------------------------------------------------------------------------

  /** One straggler goes on alone. */
  lemma {:induction false} StragglerAlone(g: Generations, i: nat, p: Pid, now: int) returns (ts: seq<Turn>)
    requires i < |g.replaced| && p in g.replaced[i].pcs
    ensures var o := Solo(Seen(g, i), p, now);
      Steps(g, ts) == Generations(g.current.(keys := o.keys), g.replaced[i := o]) ||
      (Steps(g, ts) == g && o == Seen(g, i))
    decreases Rank(g.replaced[i].pcs[p])
  {
    ts := [];
    var pc := g.replaced[i].pcs[p];
    if !Stuck(pc) {
      var t := Straggler(i, Advance(p, now));
      RankDecreases(pc, g.current.keys);
      var g1 := Step(g, t);
      var rest := StragglerAlone(g1, i, p, now);
      OneStep(g, t);
      StepsConcat(g, [t], rest);
      ts := [t] + rest;
    }
  }

  /** A stray DECR after the new run's claim, and its orchestrator finishes: the run ends while its
      producer works. */
  lemma StrayDecrEnds(g: Generations) returns (ts: seq<Turn>)
    requires JustStarted(g.current) && g.current.pcs == map[ORCHESTRATOR := Working]
    requires g.current.keys.done == 0 && g.current.keys.total == 1 && g.current.keys.failed == 0
    requires g.current.run in g.current.keys.rows
    requires |g.replaced| == 1 && Is(g.replaced[0], 1, Reporting(DecrInflight))
    ensures var w := Steps(g, ts).current;
      w.keys.ended && Is(w, 1, Working) && w.keys.inflight == 0 && w.run == g.current.run && RowIs(w, Concluido)
  {
    var claim := ClaimLabels(1);
    OrchestratorClaims(g.current, 1);
    var progress := OrchestratorProgresses(Run(g.current, claim));
    RunConcat(g.current, claim, progress);
    PresentAlone(g, claim + progress);
    var g1 := Steps(g, PresentTurns(claim + progress));
    assert Is(g1.replaced[0], 1, Reporting(DecrInflight));
    hide Steps, Run, Rank, Solo, Finalized;
    StragglerAdvances(g1, 0, 1);
    var t := Straggler(0, Advance(1, 0));
    var g2 := Step(g1, t);
    OneStep(g1, t);
    var finish := FinishAlone(g2.current);
    PresentAlone(g2, finish);
    StepsConcat(g1, [t], PresentTurns(finish));
    StepsConcat(g, PresentTurns(claim + progress), [t] + PresentTurns(finish));
    ts := PresentTurns(claim + progress) + ([t] + PresentTurns(finish));
  }

  /** dispatch_finished alone, as one run of commands. */
  lemma FinishAlone(w: World) returns (tr: seq<Label>)
    requires Is(w, ORCHESTRATOR, Working) && HasRun(w)
    ensures var (k, won) := DispatchFinished(w.keys, Some(w.run), true, 0);
      Run(w, tr) == Moved(w, ORCHESTRATOR, Returned(won), k)
  {
    SoloDispatchFinished(w, 0);
    var rest := SoloIsARun(Next(w, BeginFinish), ORCHESTRATOR, 0);
    RunOne(w, [], BeginFinish);
    RunConcat(w, [] + [BeginFinish], rest);
    tr := [] + [BeginFinish] + rest;
  }

  /** The first run of a flushed engine claims a producer, which reads the token of its run. */
  lemma FirstRunReports() returns (w: World, tr: seq<Label>)
    ensures w == Run(Opened(FLUSHED, ONE_UF, "r1", 0), tr)
    ensures Is(w, 1, Reporting(DecrInflight)) && w.run == "r1" && w.keys.rows.Keys == {"r1"}
  {
    var w0 := Opened(FLUSHED, ONE_UF, "r1", 0);
    OrchestratorClaims(w0, 1);
    RunOne(w0, ClaimLabels(1), BeginDone(1, false));
    tr := ClaimLabels(1) + [BeginDone(1, false)];
    w := Run(w0, tr);
  }

  /** From a flushed Redis: a producer of the first run is about to DECR when DESLIGADO and a
      second start come; it pays back the claim of the second run, which ends "concluido" with its
      only producer at work. */
  lemma StragglerEndsTheNewRun() returns (tr: seq<Label>, ts: seq<Turn>)
    ensures FreshStart(FLUSHED, ONE_UF, "r1")
    ensures var first := Run(Opened(FLUSHED, ONE_UF, "r1", 0), tr);
      var off := WithMode(first.keys, Desligado, true);
      && FreshStart(off, ONE_UF, "r2") && first.run == "r1"
      && var w := Steps(Replacing(off, ONE_UF, "r2", 0, [first]), ts).current;
         w.run == "r2" && w.keys.ended && Is(w, 1, Working) && RowIs(w, Concluido)
  {
    var first: World;
    first, tr := FirstRunReports();
    var off := WithMode(first.keys, Desligado, true);
    assert "r2" !in off.rows;
    ts := StrayDecrEnds(Replacing(off, ONE_UF, "r2", 0, [first]));
  }

  /** No DESLIGADO is needed: the winner of a run sets idle first, so a start may pass before its
      other writes. Those then switch the new run off. */
  lemma StartDuringTheWin(w: World, p: Pid, done: int, interrupted: bool, req: Request, id: RunId, now: int)
    returns (ts: seq<Turn>)
    requires Is(w, p, Winning(DelUf, done, interrupted)) && FreshStart(w.keys, req, id) && w.run != id
    ensures var k := Steps(Replacing(w.keys, req, id, now, [w]), ts).current.keys;
      k.phase == Running && k.runId == Some(id) && !k.ended && !k.enabled && k.mode == Desligado
  {
    var g := Replacing(w.keys, req, id, now, [w]);
    var o, k := Seen(g, 0), g.current.keys;
    assert k.reason.None? && k.phase == Running && k.runId == Some(id) && !k.ended;
    SoloHere(o, p, Winning(DelUf, done, interrupted));
    WinnerGoesOn(o, p, k, now, done, interrupted);
    hide Solo, Rank, Steps, Finalized, Opened;
    ts := StragglerAlone(g, 0, p, now);
  }

  lemma WinnerGoesOn(o: World, p: Pid, k: State, now: int, done: int, interrupted: bool)
    requires p in o.pcs && k.reason.None?
    ensures Solo(Moved(o, p, Winning(DelUf, done, interrupted), k), p, now).keys ==
      k.(currentUf := None, enabled := false, mode := Desligado,
         rows := Finalized(k.rows, true, o.run, if interrupted then Parcial else Concluido, done, now))
  {
    hide Rank, Finalized;
    SoloFrom(o, p, Winning(DelUf, done, interrupted), k, now);
    SoloFrom(o, p, Winning(SetEnabled, done, interrupted), k.(currentUf := None), now);
    SoloClosing(o, p, k.(currentUf := None, enabled := false), now, done, interrupted);
    hide Solo;
  }

  // ---- producer_done in two moments ---------------------------------------------------------

  /** producer_done of a producer of `old` that read the token in the keys `early` and issues the
      rest of its commands on the keys `late`. */
  function DoneAcross(early: State, late: State, gen: RunId, failed: bool, now: int): (State, bool) {
    if Current(early, Some(gen)).None? then (late, false)
    else
      var counted := if failed then late.(failed := late.failed + 1) else late;
      MaybeComplete(counted.(inflight := Max(0, counted.inflight - 1)), gen, true, now)
  }

  /** The same keys at both moments are the atomic producer_done. */
  lemma NothingBetweenIsAtomic(k: State, gen: RunId, failed: bool, now: int)
    ensures DoneAcross(k, k, gen, failed, now) == ProducerDone(k, Some(gen), failed, true, now)
  {
  }

  /** Those are the commands: the first one on the early keys, the others alone on the late ones. */
  lemma CommandsAcross(w: World, p: Pid, failed: bool, late: State, now: int)
    requires Is(w, p, Working) && p != ORCHESTRATOR
    ensures var begun := Next(w, BeginDone(p, failed)).(keys := late);
      var (k, won) := DoneAcross(w.keys, late, w.run, failed, now);
      Solo(begun, p, now).keys == k && Is(Solo(begun, p, now), p, if HasRun(w) then Returned(won) else Ignored)
  {
    if HasRun(w) {
      var u := Next(w, BeginDone(p, failed)).(pcs := w.pcs, keys := late);
      if failed {
        SoloFrom(u, p, Reporting(IncrFailed), late, now);
        SoloDecr(u, p, late.(failed := late.failed + 1), now);
      } else {
        SoloDecr(u, p, late, now);
      }
    }
  }

  /** One straggler, split once: right after its token read, and then a block. The block leaves all
      keys and rows alone exactly when the token read found another run; or it did not fail,
      nothing is in flight and no completion is due. */
  lemma BlockIsHarmlessIff(early: State, late: State, gen: RunId, failed: bool, now: int)
    requires late.inflight >= 0
    ensures DoneAcross(early, late, gen, failed, now).0 == late <==>
      (early.runId != Some(gen) ||
       (!failed && late.inflight == 0 && (late.ended || !late.dispatchDone)))
  {
  }

  /** What such a block does to a run with producers in flight: it pays back a claim, and if that
      was the last one after dispatch it ends the run, writing the verdict on its own run's row. */
  lemma BlockPaysTheNewRun(early: State, late: State, gen: RunId, now: int)
    requires early.runId == Some(gen) && late.runId.Some? && late.runId != Some(gen) && late.inflight > 0
    ensures var (k, won) := DoneAcross(early, late, gen, false, now);
      && k.inflight == late.inflight - 1
      && (won <==> late.inflight == 1 && late.dispatchDone && !late.ended)
      && (won ==> k.ended && forall id | id in late.rows && id != gen :: id in k.rows && k.rows[id] == late.rows[id])
  {
  }
}
