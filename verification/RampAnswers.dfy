/**
 The send-path gate condition by condition, and the tallies of the interleaved ramp command by
 command.
 */
module RampAnswers {
  import opened Common
  import opened RampGate

  /** The body names the sender. */
  lemma MentionsIff(body: string, word: string)
    ensures Mentions(body, word) <==> exists before, after :: body == before + word + after
  {
    if i :| 0 <= i <= |body| && WordAt(body, word, i) {
      assert body == body[..i] + word + body[i + |word|..];
    }
    if before, after :| body == before + word + after {
      assert body[|before|..|before| + |word|] == word;
      assert WordAt(body, word, |before|);
    }
  }

  /** Fit to be sent, the ramp and the quality apart: a phone, a consent, the sender's name in the body,
      no opt-out, an approved template, a window not closed, and the human gate passed. */
  predicate Fit(r: Request, s: Settings) {
    && !Blank(r.phone) && r.consentRow && !r.optedOut
    && r.body.Some? && Mentions(r.body.value, "Norteia")
    && (exists i | 0 <= i < |s.approvedTemplates| :: s.approvedTemplates[i] == r.template)
    && (r.windowOpen.None? || r.windowOpen.value)
    && r.subState == "whatsapp_in_progress"
  }

  /** The gate opens exactly for a fit request under the cap, which is fifty unless set, while the
      quality is not RED; it stops at the ramp exactly for a fit one over the cap, and at the quality
      exactly for a fit one under it. */
  lemma GateOpensIff(n: nat, r: Request, s: Settings, count: int, red: bool)
    requires FirstFailure(n, r, s, count, red)
    ensures var under := count < if s.rampCap.Some? then s.rampCap.value else 50;
      && (n == 9 <==> Fit(r, s) && under && !red)
      && (n == 8 <==> Fit(r, s) && under && red)
      && (n == 7 <==> Fit(r, s) && !under)
  {
    assert Holds(4, r, s, count, red) <==>
      exists i | 0 <= i < |s.approvedTemplates| :: s.approvedTemplates[i] == r.template;
    hide Mentions, Blank;
    AllBefore(n, r, s, count, red);
  }

  lemma AllBefore(n: nat, r: Request, s: Settings, count: int, red: bool)
    requires FirstFailure(n, r, s, count, red)
    ensures n >= 7 <==> forall m | 0 <= m < 7 :: Holds(m, r, s, count, red)
    ensures (forall m | 0 <= m < 7 :: Holds(m, r, s, count, red)) <==>
      (Holds(0, r, s, count, red) && Holds(1, r, s, count, red) && Holds(2, r, s, count, red)
       && Holds(3, r, s, count, red) && Holds(4, r, s, count, red) && Holds(5, r, s, count, red)
       && Holds(6, r, s, count, red))
    ensures n >= 8 <==> n >= 7 && Holds(7, r, s, count, red)
    ensures n == 9 <==> n >= 8 && Holds(8, r, s, count, red)
  {
    hide Holds;
  }

  /** Which of the earlier conditions is named: the first that fails. */
  lemma EarlyFailureIs(n: nat, r: Request, s: Settings, count: int, red: bool)
    requires FirstFailure(n, r, s, count, red)
    ensures n == 0 <==> Blank(r.phone)
    ensures n > 0 ==> (n == 1 <==> !r.consentRow)
    ensures n > 1 ==> (n == 2 <==> r.body.None? || !Mentions(r.body.value, "Norteia"))
    ensures n > 2 ==> (n == 3 <==> r.optedOut)
    ensures n > 3 ==> (n == 4 <==> forall i | 0 <= i < |s.approvedTemplates| :: s.approvedTemplates[i] != r.template)
    ensures n > 4 ==> (n == 5 <==> r.windowOpen == Some(false))
    ensures n > 5 ==> (n == 6 <==> r.subState != "whatsapp_in_progress")
  {
    HeldBefore(n, r, s, count, red);
    hide Mentions, Blank;
  }

  lemma HeldBefore(n: nat, r: Request, s: Settings, count: int, red: bool)
    requires FirstFailure(n, r, s, count, red)
    ensures (0 < n ==> Holds(0, r, s, count, red)) && (1 < n ==> Holds(1, r, s, count, red))
    ensures (2 < n ==> Holds(2, r, s, count, red)) && (3 < n ==> Holds(3, r, s, count, red))
    ensures (4 < n ==> Holds(4, r, s, count, red)) && (5 < n ==> Holds(5, r, s, count, red))
    ensures (6 < n ==> Holds(6, r, s, count, red)) && !Holds(n, r, s, count, red)
  {
    hide Holds;
  }

  // ---- Commands -----------------------------------------------------------------------------

  /** What a command adds to each tally: a pass at the compare, a refusal at the undo, and at the quality
      read a message sent, or a unit burned if the flag is RED. */
  lemma TalliesMove(cap: int, s: World, l: Label)
    ensures var s' := Next(cap, s, l);
      var pc := if !l.SetRed? && l.w < |s.senders| then s.senders[l.w] else Idle;
      && s'.ramped - s.ramped ==
           (if l.Compare? && (pc.Armed? || (pc.Reserved? && pc.seen != 1)) && pc.seen <= cap then 1 else 0)
      && s'.refused - s.refused == (if l.Undo? && pc.Undoing? then 1 else 0)
      && s'.sent - s.sent == (if l.ReadQuality? && pc.Admitted? && !s.red then 1 else 0)
      && s'.burned - s.burned == (if l.ReadQuality? && pc.Admitted? && s.red then 1 else 0)
      && s'.count - s.count == (if l.Incr? && l.w < |s.senders| && pc.Idle? then 1
                                else if l.Undo? && pc.Undoing? then -1 else 0)
      && s'.red == (if l.SetRed? then l.on else s.red)
  {
  }

  /** At first the counter is missing: nothing counted, no expiry, nobody in a call. */
  lemma FreshIs(senders: nat)
    ensures var s := Fresh(senders);
      && s.count == 0 && !s.expiring && !s.red && s.ramped == s.refused == s.sent == s.burned == 0
      && |s.senders| == senders && forall i | 0 <= i < senders :: s.senders[i] == Idle
  {
  }
}
