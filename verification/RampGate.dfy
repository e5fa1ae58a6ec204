/**
 The send-path gate and its volume ramp: INCR first, compare, DECR when over the cap. The class
 is one caller alone; the machine below it interleaves the Redis commands of many.
 */
module RampGate {
  import opened Common

  /** One counter a UTC day, global or per state. */
  datatype RampKey = RampKey(uf: Option<string>, day: int)

  datatype Request = Request(
    phone: string, consentRow: bool, body: Option<string>, optedOut: bool, template: string,
    windowOpen: Option<bool>, subState: string)

  datatype Settings = Settings(approvedTemplates: seq<string>, rampCap: Option<int>)

  predicate Mentions(body: string, word: string) {
    exists i | 0 <= i <= |body| :: WordAt(body, word, i)
  }

  predicate WordAt(body: string, word: string, i: nat) {
    i + |word| <= |body| && body[i..i + |word|] == word
  }

  function CapOf(s: Settings): int {
    if s.rampCap.Some? then s.rampCap.value else 50
  }

  /** The nine gate conditions by number. */
  predicate Holds(n: nat, r: Request, s: Settings, count: int, red: bool) {
    match n
    case 0 => !Blank(r.phone)
    case 1 => r.consentRow
    case 2 => r.body.Some? && Mentions(r.body.value, "Norteia")
    case 3 => !r.optedOut
    case 4 => r.template in s.approvedTemplates
    case 5 => r.windowOpen != Some(false)
    case 6 => r.subState == "whatsapp_in_progress"
    case 7 => count < CapOf(s)
    case 8 => !red
    case _ => false
  }

  /** The first condition that fails; 9 is none. */
  ghost predicate FirstFailure(n: nat, r: Request, s: Settings, count: int, red: bool) {
    && n <= 9 && !Holds(n, r, s, count, red)
    && forall m | 0 <= m < n :: Holds(m, r, s, count, red)
  }

  class Redis {
    var ramp: map<RampKey, int>
    var expiring: set<RampKey>    // keys that carry an expiry at the next midnight
    var qualityRed: bool

    function Count(k: RampKey): int
      reads this`ramp
    {
      if k in ramp then ramp[k] else 0
    }

    /** Alone, a call passes iff the counter is under the cap, and only then does it stay counted. */
    method CheckAndIncrementRamp(cap: int, uf: Option<string>, day: int) returns (passed: bool)
      modifies this`ramp, this`expiring
      ensures passed <==> old(Count(RampKey(uf, day))) < cap
      ensures ramp == old(ramp)[RampKey(uf, day) := old(Count(RampKey(uf, day))) + if passed then 1 else 0]
      ensures expiring == old(expiring) + if old(Count(RampKey(uf, day))) == 0 then {RampKey(uf, day)} else {}
      ensures RampKey(uf, day) !in old(ramp) ==>
        ((passed <==> cap >= 1) && ramp[RampKey(uf, day)] == if cap >= 1 then 1 else 0)
    {
      var key := RampKey(uf, day);
      var count := Count(key) + 1;
      ramp := ramp[key := count];
      if count == 1 {
        expiring := expiring + {key};
      }
      if count > cap {
        ramp := ramp[key := Count(key) - 1];
        return false;
      }
      return true;
    }

    /** The gate names the first condition that fails, or none. It takes a unit of the global ramp
        iff the conditions before the ramp and the ramp itself hold: a RED quality refuses the
        message and keeps the unit. */
    method SendPathGate(r: Request, s: Settings, day: int) returns (failed: nat)
      modifies this`ramp, this`expiring
      ensures FirstFailure(failed, r, s, old(Count(RampKey(None, day))), qualityRed)
      ensures Count(RampKey(None, day)) == old(Count(RampKey(None, day))) + if failed >= 8 then 1 else 0
      ensures forall k | k != RampKey(None, day) :: Count(k) == old(Count(k))
      ensures failed < 7 ==> ramp == old(ramp) && expiring == old(expiring)
    {
      if Blank(r.phone) { return 0; }
      if !r.consentRow { return 1; }
      var body := if r.body.Some? then r.body.value else "";
      if !Mentions(body, "Norteia") { return 2; }
      if r.optedOut { return 3; }
      if r.template !in s.approvedTemplates { return 4; }
      var open := if r.windowOpen.Some? then r.windowOpen.value else true;
      if !open { return 5; }
      if r.subState != "whatsapp_in_progress" { return 6; }
      var passed := CheckAndIncrementRamp(CapOf(s), None, day);
      if !passed { return 7; }
      if qualityRed { return 8; }
      return 9;
    }
  }

  // ---- Many senders on one key -----------------------------------------------------------

  /** A sender that passed conditions 0 to 6: INCR, EXPIREAT if it saw 1, compare, then either
      the undoing DECR or the quality read. */
  datatype Sender = Idle | Reserved(seen: int) | Armed(seen: int) | Undoing | Admitted

  datatype World = World(
    count: int, expiring: bool, red: bool, senders: seq<Sender>,
    ramped: nat,     // calls the ramp let through
    refused: nat,    // calls it refused, unit given back
    sent: nat,       // messages that left the gate
    burned: nat)     // units taken by a call that RED then refused

  datatype Label =
    | Incr(w: nat) | ExpireAt(w: nat) | Compare(w: nat) | Undo(w: nat) | ReadQuality(w: nat) | SetRed(on: bool)

  function Next(cap: int, s: World, l: Label): World {
    if l.SetRed? then s.(red := l.on)
    else if l.w >= |s.senders| then s
    else
      var pc := s.senders[l.w];
      match l
      case Incr(w) =>
        if pc.Idle? then s.(count := s.count + 1, senders := s.senders[w := Reserved(s.count + 1)]) else s
      case ExpireAt(w) =>
        if pc.Reserved? && pc.seen == 1 then s.(expiring := true, senders := s.senders[w := Armed(pc.seen)]) else s
      case Compare(w) =>
        if pc.Armed? || (pc.Reserved? && pc.seen != 1) then
          if pc.seen > cap then s.(senders := s.senders[w := Undoing])
          else s.(ramped := s.ramped + 1, senders := s.senders[w := Admitted])
        else s
      case Undo(w) =>
        if pc.Undoing? then s.(count := s.count - 1, refused := s.refused + 1, senders := s.senders[w := Idle]) else s
      case ReadQuality(w) =>
        if pc.Admitted? then
          if s.red then s.(burned := s.burned + 1, senders := s.senders[w := Idle])
          else s.(sent := s.sent + 1, senders := s.senders[w := Idle])
        else s
  }

  function Run(cap: int, s: World, tr: seq<Label>): World {
    if tr == [] then s else Next(cap, Run(cap, s, tr[..|tr| - 1]), tr[|tr| - 1])
  }

  function Fresh(senders: nat): World {
    World(0, false, false, seq(senders, _ => Idle), 0, 0, 0, 0)
  }

  /** A sender whose commands nobody interrupts does what check_and_increment_ramp does alone. */
  lemma CallAlone(cap: int, s: World, w: nat)
    requires w < |s.senders| && s.senders[w].Idle?
    ensures var s' := Next(cap, Next(cap, Next(cap, Next(cap, s, Incr(w)), ExpireAt(w)), Compare(w)), Undo(w));
      && s'.count == s.count + (if s.count < cap then 1 else 0)
      && s'.expiring == (s.expiring || s.count == 0)
      && s'.senders == s.senders[w := if s.count < cap then Admitted else Idle]
  {
    var s1 := Next(cap, s, Incr(w));
    var s2 := Next(cap, s1, ExpireAt(w));
    assert s1.senders == s.senders[w := Reserved(s.count + 1)];
    assert s2.senders == s.senders[w := if s.count == 0 then Armed(1) else Reserved(s.count + 1)];
    var s3 := Next(cap, s2, Compare(w));
    assert s3.senders == s.senders[w := if s.count < cap then Admitted else Undoing];
  }

  /** Where a sender's unit stands: inside the cap, over it, or already let through. */
  datatype Kind = Within | Over | Through

  function KindOf(cap: int, pc: Sender): Option<Kind> {
    match pc
    case Idle => None
    case Reserved(seen) => if seen <= cap then Some(Within) else Some(Over)
    case Armed(seen) => if seen <= cap then Some(Within) else Some(Over)
    case Undoing => Some(Over)
    case Admitted => Some(Through)
  }

  function Weight(cap: int, k: Kind, pc: Sender): int {
    if KindOf(cap, pc) == Some(k) then 1 else 0
  }

  function Weights(cap: int, k: Kind, pcs: seq<Sender>): (xs: seq<int>)
    ensures |xs| == |pcs|
  {
    seq(|pcs|, i requires 0 <= i < |pcs| => Weight(cap, k, pcs[i]))
  }

  /** How many senders hold a unit of that kind. */
  function Holding(cap: int, k: Kind, pcs: seq<Sender>): int {
    Sum(Weights(cap, k, pcs))
  }

  lemma Moves(cap: int, k: Kind, pcs: seq<Sender>, w: nat, pc: Sender)
    requires w < |pcs|
    ensures Holding(cap, k, pcs[w := pc]) == Holding(cap, k, pcs) - Weight(cap, k, pcs[w]) + Weight(cap, k, pc)
    ensures Holding(cap, k, pcs) >= Weight(cap, k, pcs[w])
    ensures Holding(cap, k, pcs[w := pc]) >= 0
  {
    var xs := Weights(cap, k, pcs);
    assert Weights(cap, k, pcs[w := pc]) == xs[w := Weight(cap, k, pc)];
    SumUpdate(xs, w, Weight(cap, k, pc));
    SumNonNegative(xs);
    SumNonNegative(Weights(cap, k, pcs[w := pc]));
  }

  lemma NoneHolds(cap: int, k: Kind, pcs: seq<Sender>)
    requires forall i | 0 <= i < |pcs| :: pcs[i].Idle?
    ensures Holding(cap, k, pcs) == 0
  {
    var xs := Weights(cap, k, pcs);
    forall i | 0 <= i < |xs| ensures xs[i] == 0 {}
    SumZero(xs);
  }

  /** The counter is the calls let through plus the units still held; the ones inside the cap
      never exceed it; and a unit over the cap, or a refusal, means the cap is fully taken. */
  ghost predicate Tallied(cap: int, s: World) {
    var within, over := s.ramped + Holding(cap, Within, s.senders), Holding(cap, Over, s.senders);
    && s.count == within + over
    && over >= 0 && s.ramped <= within <= Max(0, cap)
    && (over > 0 || s.refused > 0 ==> within == Max(0, cap))
    && s.ramped == s.sent + s.burned + Holding(cap, Through, s.senders)
  }

  /** Whoever saw 1 sets the expiry, so a used counter has one or is about to. */
  ghost predicate Expires(s: World) {
    s.count > 0 ==> s.expiring || exists i :: 0 <= i < |s.senders| && s.senders[i] == Reserved(1)
  }

  ghost predicate Inv(cap: int, s: World) {
    Tallied(cap, s) && Expires(s)
  }

  lemma StepKeepsInv(cap: int, s: World, l: Label)
    requires Inv(cap, s)
    ensures Inv(cap, Next(cap, s, l))
  {
    StepKeepsTally(cap, s, l);
    StepKeepsExpiry(cap, s, l);
  }

  lemma StepKeepsTally(cap: int, s: World, l: Label)
    requires Tallied(cap, s)
    ensures Tallied(cap, Next(cap, s, l))
  {
    var s' := Next(cap, s, l);
    if s'.senders != s.senders {
      var w := l.w;
      var pc := s'.senders[w];
      assert s'.senders == s.senders[w := pc];
      Moves(cap, Within, s.senders, w, pc);
      Moves(cap, Over, s.senders, w, pc);
      Moves(cap, Through, s.senders, w, pc);
    }
  }

  lemma StepKeepsExpiry(cap: int, s: World, l: Label)
    requires Expires(s) && s.count >= 0
    ensures Expires(Next(cap, s, l))
  {
    var s' := Next(cap, s, l);
    if s'.count > 0 && !s'.expiring && s' != s && !l.SetRed? {
      if s.count > 0 {
        var i :| 0 <= i < |s.senders| && s.senders[i] == Reserved(1);
        assert s'.senders[i] == Reserved(1);
      } else {
        assert s'.senders[l.w] == Reserved(1);
      }
    }
  }

  lemma {:induction false} InvAlwaysHolds(cap: int, senders: nat, tr: seq<Label>)
    ensures Inv(cap, Run(cap, Fresh(senders), tr))
  {
    if tr == [] {
      NoneHolds(cap, Within, Fresh(senders).senders);
      NoneHolds(cap, Over, Fresh(senders).senders);
      NoneHolds(cap, Through, Fresh(senders).senders);
    } else {
      InvAlwaysHolds(cap, senders, tr[..|tr| - 1]);
      StepKeepsInv(cap, Run(cap, Fresh(senders), tr[..|tr| - 1]), tr[|tr| - 1]);
    }
  }

  /** However the commands interleave, no more than the cap pass the ramp, no more than pass it
      are sent, and the counter is never behind what passed. */
  lemma AtMostCapPass(cap: int, senders: nat, tr: seq<Label>)
    ensures var s := Run(cap, Fresh(senders), tr);
      s.sent + s.burned <= s.ramped <= Max(0, cap) && s.ramped <= s.count
  {
    InvAlwaysHolds(cap, senders, tr);
    var s := Run(cap, Fresh(senders), tr);
    SumNonNegative(Weights(cap, Through, s.senders));
  }

  /** With nobody mid-call the counter is exactly what passed, each unit is a message or a RED
      refusal, and of n calls exactly min(n, cap) passed: the undo never costs a later caller its
      place, and no caller is refused while the cap has room. */
  lemma AtRestExactlyTheCapPassed(cap: int, senders: nat, tr: seq<Label>)
    requires forall pc | pc in Run(cap, Fresh(senders), tr).senders :: pc.Idle?
    ensures var s := Run(cap, Fresh(senders), tr);
      && s.count == s.ramped == s.sent + s.burned
      && s.ramped == Min(s.ramped + s.refused, Max(0, cap))
      && (s.count > 0 ==> s.expiring)
  {
    InvAlwaysHolds(cap, senders, tr);
    var s := Run(cap, Fresh(senders), tr);
    NoneHolds(cap, Within, s.senders);
    NoneHolds(cap, Over, s.senders);
    NoneHolds(cap, Through, s.senders);
  }

  /** A sender that will be refused only ever saw a cap already taken in full. */
  lemma RefusedOnlyWhenTheCapIsTaken(cap: int, senders: nat, tr: seq<Label>, w: nat)
    requires var s := Run(cap, Fresh(senders), tr);
      w < |s.senders| && KindOf(cap, s.senders[w]) == Some(Over)
    ensures var s := Run(cap, Fresh(senders), tr);
      s.ramped + Holding(cap, Within, s.senders) == Max(0, cap)
  {
    InvAlwaysHolds(cap, senders, tr);
    var s := Run(cap, Fresh(senders), tr);
    Moves(cap, Over, s.senders, w, s.senders[w]);
  }
}
