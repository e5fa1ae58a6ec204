/**
 The whole manifest run: when the dry run foretells --apply, and what a second --apply does.
 */
module TerritorialRuns {
  import opened Common
  import opened TerritorialFixes
  import opened TerritorialReadings

  // ---- The overlay ------------------------------------------------------------------------

  function PidOf(v: Val): Option<string> {
    match v
    case Text(s) => Some(s)
    case _ => None
  }

  /** Where a fix plans a record that reads so. */
  function PlaceOf(c: Context, x: Reading, f: FixEntry): Place
    requires Accepted(c, f)
  {
    Place(if f.municipio != "" then Some(c.municipios[f.municipio].code) else x.municipio,
          if f.clearPlace then None else PidOf(x.pid))
  }

  lemma FixPlans(c: Context, s: State, f: FixEntry, apply: bool)
    ensures FixStep(c, s, f, apply).planned ==
      if Fixable(c, s.db, f) then s.planned[f.ref := Some(PlaceOf(c, ReadingsOf(s.db)[f.ref], f))] else s.planned
  {
    if Fixable(c, s.db, f) {
      FixLands(c, s, f, apply);
      FixedNormAt(c, s.db, f, apply, GooglePlaceId);
    } else {
      FixRefused(c, s, f, apply);
    }
    hide FixStep, FixedNorm, Placeless;
  }

  predicate AgreeOn(a: Planned, b: Planned, r: Ref) {
    (r in a <==> r in b) && (r in a ==> a[r] == b[r])
  }

  /** No later fix of the same record is carried out. */
  predicate LastFix(c: Context, fs: seq<FixEntry>, i: nat) {
    i < |fs| && Accepted(c, fs[i]) && forall j | i < j < |fs| && fs[j].ref == fs[i].ref :: !Accepted(c, fs[j])
  }

  /** The fix plans the same place for the record as it finds it and as it was. */
  predicate PlaceAlike(c: Context, db: Db, fs: seq<FixEntry>, i: nat)
    requires i < |fs|
  {
    var now, f := AllFixReadings(c, ReadingsOf(db), fs[..i]), fs[i];
    f.ref in db.rios && f.ref in now && Accepted(c, f) ==>
      PlaceOf(c, now[f.ref], f) == PlaceOf(c, ReadingOf(db.rios[f.ref]), f)
  }

  /** The last fix of the record, if any, plans alike. */
  predicate PlannedAlike(c: Context, db: Db, fs: seq<FixEntry>, r: Ref) {
    forall i | 0 <= i < |fs| && fs[i].ref == r && LastFix(c, fs, i) :: PlaceAlike(c, db, fs, i)
  }

  lemma PlannedAlikeSnoc(c: Context, db: Db, fs: seq<FixEntry>, r: Ref)
    requires fs != []
    ensures var init, n := fs[..|fs| - 1], |fs| - 1;
      PlannedAlike(c, db, fs, r) <==>
        if fs[n].ref == r && Accepted(c, fs[n]) then PlaceAlike(c, db, fs, n) else PlannedAlike(c, db, init, r)
  {
    var init, n := fs[..|fs| - 1], |fs| - 1;
    hide PlaceAlike, Accepted;
    forall i | 0 <= i < n ensures PlaceAlike(c, db, fs, i) == PlaceAlike(c, db, init, i) {
      SamePrefix(c, db, fs, i);
    }
    forall i | 0 <= i < n && fs[i].ref == r
      ensures LastFix(c, fs, i) <==> LastFix(c, init, i) && !(fs[n].ref == r && Accepted(c, fs[n]))
    {
      assert init[i] == fs[i];
    }
  }

  lemma SamePrefix(c: Context, db: Db, fs: seq<FixEntry>, i: nat)
    requires i < |fs| - 1
    ensures PlaceAlike(c, db, fs, i) == PlaceAlike(c, db, fs[..|fs| - 1], i)
  {
    assert fs[..|fs| - 1][..i] == fs[..i];
  }

  lemma {:induction false} ReadingsStay(c: Context, m: Readings, fs: seq<FixEntry>)
    ensures m.Keys <= AllFixReadings(c, m, fs).Keys
  {
    if fs != [] { ReadingsStay(c, m, fs[..|fs| - 1]); }
    hide AfterFix, DestinoRef;
  }

  /** The overlays of the two runs, on a record that is there, before the twins are looked for. */
  lemma {:induction false} FixesPlanAlikeIff(c: Context, db: Db, m: Manifest, n: nat, r: Ref)
    requires Intact(c, db) && ClashFree(db, m.attractions) && n <= |m.fixes| && r in db.rios
    ensures AgreeOn(Fixed(c, db, m, n, false).planned, Fixed(c, db, m, n, true).planned, r) <==>
      PlannedAlike(c, db, m.fixes[..n], r)
  {
    if n == 0 {
      DryMergesAgreeIffClashFree(c, db, m.attractions);
      hide AllMerges, PlaceAlike;
    } else {
      var fs, f := m.fixes[..n], m.fixes[n - 1];
      assert fs[..|fs| - 1] == m.fixes[..n - 1];
      FixesPlanAlikeIff(c, db, m, n - 1, r);
      PlannedAlikeSnoc(c, db, fs, r);
      PlannedTurn(c, db, m, n - 1);
      ReadingsStay(c, ReadingsOf(db), fs[..n - 1]);
      hide Fixed, PlannedAlike, PlaceOf, Accepted, AllFixReadings, ReadingOf;
    }
  }

  lemma PlannedTurn(c: Context, db: Db, m: Manifest, i: nat)
    requires Intact(c, db) && i < |m.fixes|
    ensures var f, now := m.fixes[i], AllFixReadings(c, ReadingsOf(db), m.fixes[..i]);
      var dry, done := Fixed(c, db, m, i, false).planned, Fixed(c, db, m, i, true).planned;
      && Fixed(c, db, m, i + 1, false).planned ==
           (if f.ref in db.rios && Accepted(c, f)
            then dry[f.ref := Some(PlaceOf(c, ReadingOf(db.rios[f.ref]), f))] else dry)
      && Fixed(c, db, m, i + 1, true).planned ==
           (if f.ref in now && Accepted(c, f) then done[f.ref := Some(PlaceOf(c, now[f.ref], f))] else done)
  {
    FixedFurther(c, db, m, i, false);
    FixedFurther(c, db, m, i, true);
    FixPlans(c, Fixed(c, db, m, i, false), m.fixes[i], false);
    FixPlans(c, Fixed(c, db, m, i, true), m.fixes[i], true);
    FixFindsTheFold(c, db, m, i);
    DryKeepsTheDatabase(c, db, m, i, 0);
    hide Fixed, FixStep, PlaceOf, Accepted, AllFixReadings, ReadingOf;
  }

  lemma {:induction false} RenamesPlanNothing(c: Context, db: Db, m: Manifest, n: nat, apply: bool)
    requires Intact(c, db) && n <= |m.renames|
    ensures Renamed(c, db, m, n, apply).planned == Fixed(c, db, m, |m.fixes|, apply).planned
  {
    if n > 0 {
      RenamesPlanNothing(c, db, m, n - 1, apply);
      RenamedFurther(c, db, m, n - 1, apply);
      RenameIsLocal(c, Renamed(c, db, m, n - 1, apply), m.renames[n - 1], apply);
      hide Renamed, Fixed, RenameStep;
    }
  }

  /** The two runs judge the twins with the same overlay on the records that are there exactly when
      the last fix of each record plans the same place for it as it finds it and as it was: the
      fix names the município, or the earlier ones leave it; and it clears the place, or they do
      not. */
  lemma OverlayAlikeIff(c: Context, db: Db, m: Manifest)
    requires Intact(c, db) && ClashFree(db, m.attractions)
    ensures var dry, done := Edits(c, db, m, false), Edits(c, db, m, true);
      (forall r | r in db.rios :: AgreeOn(dry.planned, done.planned, r)) <==>
        forall i | 0 <= i < |m.fixes| && LastFix(c, m.fixes, i) :: PlaceAlike(c, db, m.fixes, i)
  {
    EditsAreAll(c, db, m, false);
    EditsAreAll(c, db, m, true);
    RenamesPlanNothing(c, db, m, |m.renames|, false);
    RenamesPlanNothing(c, db, m, |m.renames|, true);
    assert m.fixes[..|m.fixes|] == m.fixes;
    hide Edits, Renamed, Fixed, LastFix, PlaceAlike, AgreeOn;
    forall r | r in db.rios
      ensures AgreeOn(Edits(c, db, m, false).planned, Edits(c, db, m, true).planned, r) <==>
        PlannedAlike(c, db, m.fixes, r)
    {
      FixesPlanAlikeIff(c, db, m, |m.fixes|, r);
    }
    forall i | 0 <= i < |m.fixes| && m.fixes[i].ref !in db.rios ensures PlaceAlike(c, db, m.fixes, i) {
      AbsentIsAlike(c, db, m.fixes, i);
    }
  }

  lemma AbsentIsAlike(c: Context, db: Db, fs: seq<FixEntry>, i: nat)
    requires i < |fs| && fs[i].ref !in db.rios
    ensures PlaceAlike(c, db, fs, i)
  {
  }

  lemma EditsAreAll(c: Context, db: Db, m: Manifest, apply: bool)
    requires Intact(c, db)
    ensures Edits(c, db, m, apply) == Renamed(c, db, m, |m.renames|, apply)
  {
    assert m.fixes[..|m.fixes|] == m.fixes && m.renames[..|m.renames|] == m.renames;
  }

  // ---- What --apply does to the records the twins are judged on -----------------------------

  /** One record before the run (o) and in --apply's database (x). */
  ghost predicate Tracked(o: Rio, x: Rio, r: Ref, planned: Planned) {
    && x.attraction == o.attraction
    && x.routing == (if r in planned && planned[r].None? then "descarte" else o.routing)
    && (if r in planned && planned[r].Some?
        then planned[r].value == Place(x.municipio, Pid(x.n)) && (Pid(x.n).Some? ==> Pid(o.n).Some?)
        else x.municipio == o.municipio && Pid(x.n) == Pid(o.n))
  }

  /** The overlay tells what became of every record; what --apply added are destinos. */
  ghost predicate Follows(db: Db, s: State) {
    && SameMars(db, s.db) && db.rios.Keys <= s.db.rios.Keys
    && (forall r | r in s.db.rios && r !in db.rios :: !s.db.rios[r].attraction)
    && (forall r | r in db.rios :: Tracked(db.rios[r], s.db.rios[r], r, s.planned))
  }

  lemma FixTracksItsRecord(c: Context, o: Rio, s: State, f: FixEntry)
    requires Fixable(c, s.db, f) && Tracked(o, s.db.rios[f.ref], f.ref, s.planned)
    requires f.ref in s.planned ==> s.planned[f.ref].Some?
    ensures var s' := FixStep(c, s, f, true);
      f.ref in s'.db.rios && Tracked(o, s'.db.rios[f.ref], f.ref, s'.planned)
  {
    FixLands(c, s, f, true);
    FixedNormAt(c, s.db, f, true, GooglePlaceId);
    FixedNormKeepsKeys(c, s.db, f, true);
    LandedReads(s.db.rios[f.ref], FixedNorm(c, s.db, f, true), FixMunicipio(c, f), c.now);
    hide FixStep, FixedNorm, Landed, Edited, Changes;
  }

  lemma FixKeepsAttraction(c: Context, s: State, f: FixEntry)
    requires f.ref in s.db.rios
    ensures var s' := FixStep(c, s, f, true);
      f.ref in s'.db.rios && s'.db.rios[f.ref].attraction == s.db.rios[f.ref].attraction
  {
    hide FixedNorm, Changes, Pid;
  }

  /** A fix keeps the overlay true, unless it is of a dropped record. */
  lemma FixFollows(c: Context, db: Db, s: State, f: FixEntry)
    requires Intact(c, s.db) && Follows(db, s)
    requires Fixable(c, s.db, f) && f.ref in s.planned ==> s.planned[f.ref].Some?
    ensures Follows(db, FixStep(c, s, f, true))
  {
    hide FixStep, Tracked, DestinoRef, Pid;
    var s' := FixStep(c, s, f, true);
    FixIsLocal(c, s, f, true);
    assert SameMars(db, s'.db);
    if !Fixable(c, s.db, f) {
      FixRefused(c, s, f, true);
    } else {
      FixKeepsAttraction(c, s, f);
      forall r | r in db.rios ensures Tracked(db.rios[r], s'.db.rios[r], r, s'.planned) {
        if r == f.ref { FixTracksItsRecord(c, db.rios[r], s, f); } else { TrackedElsewhere(c, db.rios[r], s, f, r); }
      }
    }
  }

  lemma TrackedElsewhere(c: Context, o: Rio, s: State, f: FixEntry, r: Ref)
    requires r != f.ref && r in s.db.rios && Tracked(o, s.db.rios[r], r, s.planned)
    ensures var s' := FixStep(c, s, f, true);
      r in s'.db.rios && Tracked(o, s'.db.rios[r], r, s'.planned)
  {
    FixIsLocal(c, s, f, true);
    hide FixStep, Pid;
  }

  /** A rename keeps it too. */
  lemma RenameFollows(c: Context, db: Db, s: State, e: RenameEntry)
    requires Follows(db, s)
    ensures Follows(db, RenameStep(c, s, e, true))
  {
    var s' := RenameStep(c, s, e, true);
    RenameIsLocal(c, s, e, true);
    if e.ref in s.db.rios { RenameKeepsPlace(c, s, e); }
    hide RenameStep, Pid;
    assert SameMars(db, s'.db);
  }

  lemma RenameKeepsPlace(c: Context, s: State, e: RenameEntry)
    requires e.ref in s.db.rios
    ensures var rio, s' := s.db.rios[e.ref], RenameStep(c, s, e, true);
      && e.ref in s'.db.rios && s'.db.rios[e.ref].attraction == rio.attraction
      && s'.db.rios[e.ref].routing == rio.routing && s'.db.rios[e.ref].municipio == rio.municipio
      && Pid(s'.db.rios[e.ref].n) == Pid(rio.n)
  {
    RenamedFields(c, s, e);
    hide Changes;
  }

  /** No record both dropped and fixed. */
  predicate DropsNoFixed(c: Context, db: Db, m: Manifest)
    requires forall s | s in db.mars :: db.mars[s].rio in db.rios
  {
    forall f | f in m.fixes && Accepted(c, f) :: !DroppedBy(db, m.attractions, f.ref)
  }

  lemma MergesFollow(c: Context, db: Db, es: seq<MergeEntry>)
    requires Intact(c, db) && ClashFree(db, es)
    ensures var s := State(db, map[], NOTHING);
      var dry, done := AllMerges(c, s, es, false), AllMerges(c, s, es, true);
      && Follows(db, done) && dry.counts == done.counts
      && (forall r :: r in done.planned <==> DroppedBy(db, es, r))
  {
    DryMergesAgreeIffClashFree(c, db, es);
    AppliedMergesOnlyDrop(c, db, es);
    DryMergesPlanTheDrops(c, db, es);
    hide DroppedBy, ClashFree, Pid;
  }

  lemma {:induction false} FixesFollow(c: Context, db: Db, m: Manifest, n: nat)
    requires Intact(c, db) && ClashFree(db, m.attractions) && DropsNoFixed(c, db, m) && n <= |m.fixes|
    ensures var s := Fixed(c, db, m, n, true);
      Follows(db, s) && forall r | r in s.planned && s.planned[r].None? :: DroppedBy(db, m.attractions, r)
  {
    if n == 0 {
      MergesFollow(c, db, m.attractions);
      hide Follows, DroppedBy, ClashFree;
    } else {
      var s, f := Fixed(c, db, m, n - 1, true), m.fixes[n - 1];
      FixesFollow(c, db, m, n - 1);
      FixFindsTheFold(c, db, m, n - 1);
      FixedFurther(c, db, m, n - 1, true);
      FixPlans(c, s, f, true);
      assert f in m.fixes;
      hide Follows, DroppedBy, ClashFree, Fixed, FixStep, PlaceOf, ReadingsOf, LeftToFix;
      FixFollows(c, db, s, f);
    }
  }

  lemma {:induction false} RenamesFollow(c: Context, db: Db, m: Manifest, n: nat)
    requires Intact(c, db) && ClashFree(db, m.attractions) && DropsNoFixed(c, db, m) && n <= |m.renames|
    ensures Follows(db, Renamed(c, db, m, n, true))
  {
    if n == 0 {
      FixesFollow(c, db, m, |m.fixes|);
      hide Follows, Fixed;
    } else {
      RenamesFollow(c, db, m, n - 1);
      RenamedFurther(c, db, m, n - 1, true);
      RenameFollows(c, db, Renamed(c, db, m, n - 1, true), m.renames[n - 1]);
      hide Follows, Renamed, RenameStep;
    }
  }

  /** Where the overlays agree, the dry run finds on the old rows the twins of the new rows. */
  lemma TwinsAgree(db: Db, planned: Planned, done: State)
    requires Follows(db, done) && forall r | r in db.rios :: AgreeOn(planned, done.planned, r)
    ensures Twins(db, planned) == Twins(done.db, done.planned)
  {
    forall r | r in done.db.rios ensures HasMar(db, r) == HasMar(done.db, r) {}
    forall r | r in db.rios
      ensures Tracked(db.rios[r], done.db.rios[r], r, done.planned)
      ensures Standing(db, planned, r) == Standing(done.db, done.planned, r)
    {
      assert AgreeOn(planned, done.planned, r);
    }
    forall p: Place ensures Some(p) in InMar(db, planned) <==> Some(p) in InMar(done.db, done.planned) {
      if Some(p) in InMar(db, planned) {
        var r :| r in db.rios && HasMar(db, r) && db.rios[r].routing == "mar" && db.rios[r].attraction
                 && Standing(db, planned, r) == Some(p);
        assert AgreeOn(planned, done.planned, r);
        assert Standing(done.db, done.planned, r) in InMar(done.db, done.planned);
      }
      if Some(p) in InMar(done.db, done.planned) {
        var r :| r in done.db.rios && HasMar(done.db, r)
                 && done.db.rios[r].routing == "mar" && done.db.rios[r].attraction
                 && Standing(done.db, done.planned, r) == Some(p);
        assert Standing(db, planned, r) in InMar(db, planned);
      }
    }
  }

  // ---- The dry run predicts --apply -----------------------------------------------------------

  /** No merge needs what an earlier one drops, no dropped record is fixed, and every fix and every
      rename finds what it needs to be judged and planned as on the old records. */
  predicate WellFormed(c: Context, db: Db, m: Manifest)
    requires Intact(c, db)
  {
    && ClashFree(db, m.attractions) && DropsNoFixed(c, db, m)
    && (forall i | 0 <= i < |m.fixes| :: FixAlike(c, db, m, i))
    && (forall i | 0 <= i < |m.fixes| && LastFix(c, m.fixes, i) :: PlaceAlike(c, db, m.fixes, i))
    && (forall i | 0 <= i < |m.renames| :: NameAlike(c, db, m, i))
  }

  lemma {:induction false} FixesCountAlike(c: Context, db: Db, m: Manifest, n: nat)
    requires Intact(c, db) && ClashFree(db, m.attractions) && n <= |m.fixes|
    requires forall i | 0 <= i < |m.fixes| :: FixAlike(c, db, m, i)
    ensures Fixed(c, db, m, n, false).counts == Fixed(c, db, m, n, true).counts
  {
    if n == 0 {
      MergesFollow(c, db, m.attractions);
      hide Follows;
    } else {
      FixesCountAlike(c, db, m, n - 1);
      assert FixAlike(c, db, m, n - 1);
      FixTurn(c, db, m, n - 1, false);
      FixTurn(c, db, m, n - 1, true);
      hide Fixed, LeftToFix, FixIdle, ReadingsOf, ClashFree, FixCounted;
    }
  }

  lemma {:induction false} RenamesCountAlike(c: Context, db: Db, m: Manifest, n: nat)
    requires Intact(c, db) && n <= |m.renames|
    requires Fixed(c, db, m, |m.fixes|, false).counts == Fixed(c, db, m, |m.fixes|, true).counts
    requires forall i | 0 <= i < |m.renames| :: NameAlike(c, db, m, i)
    ensures Renamed(c, db, m, n, false).counts == Renamed(c, db, m, n, true).counts
  {
    if n == 0 {
      hide Fixed;
    } else {
      RenamesCountAlike(c, db, m, n - 1);
      assert NameAlike(c, db, m, n - 1);
      RenameTurn(c, db, m, n - 1, false);
      RenameTurn(c, db, m, n - 1, true);
      hide Renamed, Fixed, LeftToRename, RenameIdle, ReadingsOf, RenameCounted;
    }
  }

  /** For a well-formed manifest the dry run writes nothing, finds the very twins --apply discards
      and counts every action as --apply will. */
  lemma DryRunPredictsApply(c: Context, db: Db, m: Manifest)
    requires Intact(c, db) && WellFormed(c, db, m)
    ensures RunOf(c, db, m, false).db == db
    ensures RunOf(c, db, m, false).counts == RunOf(c, db, m, true).counts
    ensures var dry, done := Edits(c, db, m, false), Edits(c, db, m, true);
      Twins(dry.db, dry.planned) == Twins(done.db, done.planned)
  {
    EditsAreAll(c, db, m, false);
    EditsAreAll(c, db, m, true);
    FixesCountAlike(c, db, m, |m.fixes|);
    RenamesCountAlike(c, db, m, |m.renames|);
    DryKeepsTheDatabase(c, db, m, 0, |m.renames|);
    RenamesFollow(c, db, m, |m.renames|);
    OverlayAlikeIff(c, db, m);
    hide Edits, Renamed, Fixed, Follows, Twins, LastFix, PlaceAlike, FixAlike, NameAlike, ClashFree, DropsNoFixed,
      AgreeOn;
    TwinsAgree(db, Edits(c, db, m, false).planned, Edits(c, db, m, true));
  }

  // ---- A second --apply -----------------------------------------------------------------------

  /** What every action does at most: routings fall to descarte, destinos appear. */
  ghost predicate Decays(a: Db, b: Db) {
    && a.rios.Keys <= b.rios.Keys && SameMars(a, b)
    && (forall r | r in b.rios && r !in a.rios :: Prefixed(r, "ibge:"))
    && (forall r | r in a.rios :: b.rios[r].routing == a.rios[r].routing || b.rios[r].routing == "descarte")
  }

  lemma DecaysFurther(a: Db, b: Db, c: Db)
    requires Decays(a, b) && Decays(b, c)
    ensures Decays(a, c)
  {
  }

  lemma DecaysNot(db: Db)
    ensures Decays(db, db)
  {
  }

  predicate MergeIdle(db: Db, e: MergeEntry)
    requires forall s | s in db.mars :: db.mars[s].rio in db.rios
  {
    !Listed(e) || !Merges(db, e)
  }

  lemma MergeStaysIdle(a: Db, b: Db, e: MergeEntry)
    requires Decays(a, b) && (forall s | s in a.mars :: a.mars[s].rio in a.rios) && MergeIdle(a, e)
    ensures (forall s | s in b.mars :: b.mars[s].rio in b.rios) && MergeIdle(b, e)
  {
    NoCardIsADestino(e.drop);
  }

  lemma NoCardIsADestino(r: Ref)
    ensures !(Prefixed(r, "tripadvisor:") && Prefixed(r, "ibge:"))
  {
    if Prefixed(r, "tripadvisor:") {
      assert r[0] == r[..12][0] == 't';
      assert |r| >= 5 ==> r[..5][0] == r[0];
    }
  }

  /** The overlay tells the truth: None for a discarded record, else where it stands. */
  ghost predicate Truthful(s: State) {
    forall r | r in s.planned ::
      r in s.db.rios &&
      if s.planned[r].None? then s.db.rios[r].routing == "descarte"
      else s.planned[r].value == Place(s.db.rios[r].municipio, Pid(s.db.rios[r].n))
  }

  lemma MergeStepDecays(c: Context, s: State, e: MergeEntry)
    requires Intact(c, s.db) && Truthful(s)
    ensures var s' := MergeStep(s, e, true);
      Decays(s.db, s'.db) && Intact(c, s'.db) && Truthful(s') && MergeIdle(s'.db, e)
  {
    var s' := MergeStep(s, e, true);
    forall r | r in s'.planned && r != e.drop
      ensures r in s'.db.rios && if s'.planned[r].None? then s'.db.rios[r].routing == "descarte"
        else s'.planned[r].value == Place(s'.db.rios[r].municipio, Pid(s'.db.rios[r].n))
    {
      assert r in s.planned;
    }
  }

  lemma {:induction false} MergesDecay(c: Context, s: State, es: seq<MergeEntry>)
    requires Intact(c, s.db) && Truthful(s)
    ensures var s' := AllMerges(c, s, es, true);
      Decays(s.db, s'.db) && Intact(c, s'.db) && Truthful(s') && forall e | e in es :: MergeIdle(s'.db, e)
  {
    hide Decays, Truthful, MergeStep, MergeIdle;
    if es == [] {
      DecaysNot(s.db);
    } else {
      var init, e := es[..|es| - 1], es[|es| - 1];
      assert es == init + [e];
      MergesDecay(c, s, init);
      var s1 := AllMerges(c, s, init, true);
      MergeStepDecays(c, s1, e);
      DecaysFurther(s.db, s1.db, MergeStep(s1, e, true).db);
      forall e' | e' in init ensures MergeIdle(MergeStep(s1, e, true).db, e') {
        MergeStaysIdle(s1.db, MergeStep(s1, e, true).db, e');
      }
    }
  }

  lemma FixDecays(c: Context, s: State, f: FixEntry)
    requires Intact(c, s.db) && Truthful(s)
    ensures var s' := FixStep(c, s, f, true);
      Decays(s.db, s'.db) && Truthful(s')
  {
    FixIsLocal(c, s, f, true);
    var s' := FixStep(c, s, f, true);
    if Fixable(c, s.db, f) {
      var after := FixedNorm(c, s.db, f, true);
      FixLands(c, s, f, true);
      FixedNormKeepsKeys(c, s.db, f, true);
      LandedReads(s.db.rios[f.ref], after, FixMunicipio(c, f), c.now);
    } else {
      FixRefused(c, s, f, true);
    }
    hide FixStep, FixedNorm, Landed, Edited, Changes, Prefixed;
    assert SameMars(s.db, s'.db);
    forall r | r in s'.planned
      ensures r in s'.db.rios && if s'.planned[r].None? then s'.db.rios[r].routing == "descarte"
        else s'.planned[r].value == Place(s'.db.rios[r].municipio, Pid(s'.db.rios[r].n))
    {
      if r != f.ref { assert r in s.planned; }
    }
  }

  lemma RenameDecays(c: Context, s: State, e: RenameEntry)
    requires Intact(c, s.db) && Truthful(s)
    ensures var s' := RenameStep(c, s, e, true);
      Decays(s.db, s'.db) && Intact(c, s'.db) && Truthful(s')
  {
    var s' := RenameStep(c, s, e, true);
    RenameIsLocal(c, s, e, true);
    if e.ref in s.db.rios { RenameKeepsPlace(c, s, e); }
    hide RenameStep, Pid;
    assert SameMars(s.db, s'.db);
  }

  /** --apply leaves no merge to make, and a true overlay. */
  lemma {:induction false} FixedDecays(c: Context, db: Db, m: Manifest, n: nat)
    requires Intact(c, db) && n <= |m.fixes|
    ensures var s := Fixed(c, db, m, n, true);
      Intact(c, s.db) && Truthful(s) && forall e | e in m.attractions :: MergeIdle(s.db, e)
  {
    if n == 0 {
      MergesDecay(c, State(db, map[], NOTHING), m.attractions);
      hide MergeIdle, Decays, AllMerges;
    } else {
      var s := Fixed(c, db, m, n - 1, true);
      FixedDecays(c, db, m, n - 1);
      FixedFurther(c, db, m, n - 1, true);
      FixDecays(c, s, m.fixes[n - 1]);
      FixKeepsIntact(c, s, m.fixes[n - 1], true);
      hide Fixed, FixStep, Decays, Truthful, MergeIdle, LeftToFix;
      forall e | e in m.attractions ensures MergeIdle(Fixed(c, db, m, n, true).db, e) {
        MergeStaysIdle(s.db, Fixed(c, db, m, n, true).db, e);
      }
    }
  }

  lemma {:induction false} RenamedDecays(c: Context, db: Db, m: Manifest, n: nat)
    requires Intact(c, db) && n <= |m.renames|
    ensures var s := Renamed(c, db, m, n, true);
      Intact(c, s.db) && Truthful(s) && forall e | e in m.attractions :: MergeIdle(s.db, e)
  {
    if n == 0 {
      FixedDecays(c, db, m, |m.fixes|);
      hide Fixed, MergeIdle, Truthful;
    } else {
      var s := Renamed(c, db, m, n - 1, true);
      RenamedDecays(c, db, m, n - 1);
      RenamedFurther(c, db, m, n - 1, true);
      RenameDecays(c, s, m.renames[n - 1]);
      hide Renamed, RenameStep, Decays, Truthful, MergeIdle, LeftToRename;
      forall e | e in m.attractions ensures MergeIdle(Renamed(c, db, m, n, true).db, e) {
        MergeStaysIdle(s.db, Renamed(c, db, m, n, true).db, e);
      }
    }
  }

  // On a database where entries are idle.

  lemma {:induction false} IdleMergesSkip(c: Context, db: Db, es: seq<MergeEntry>)
    requires Intact(c, db) && forall e | e in es :: MergeIdle(db, e)
    ensures var s := AllMerges(c, State(db, map[], NOTHING), es, true);
      s.db == db && s.planned == map[] && s.counts == NOTHING.(skipped := s.counts.skipped)
  {
    if es != [] {
      var e := es[|es| - 1];
      assert e in es;
      IdleMergesSkip(c, db, es[..|es| - 1]);
      assert MergeIdle(db, e);
    }
  }

  /** On a record that reads as wanted, the fix writes nothing and the overlay says what is there. */
  lemma IdleFixSkips(c: Context, s: State, f: FixEntry)
    requires Intact(c, s.db) && Truthful(s) && FixIdle(c, ReadingsOf(s.db), f)
    requires forall r | r in s.planned :: s.planned[r].Some?
    ensures var s' := FixStep(c, s, f, true);
      s'.db == s.db && Truthful(s') && forall r | r in s'.planned :: s'.planned[r].Some?
  {
    FixDecays(c, s, f);
    FixPlans(c, s, f, true);
    if Fixable(c, s.db, f) {
      NothingToWriteIff(c, s.db, f, true, c.now);
      NothingWritten(c, s, f);
    } else {
      FixRefused(c, s, f, true);
    }
    hide FixStep, FixedNorm, Edited, Truthful, Decays, PlaceOf, AfterFix, ReadingOf;
  }

  lemma NothingWritten(c: Context, s: State, f: FixEntry)
    requires Fixable(c, s.db, f)
    requires Edited(s.db.rios[f.ref], FixedNorm(c, s.db, f, true), FixMunicipio(c, f), c.now).None?
    ensures FixStep(c, s, f, true).db == s.db
  {
    hide FixedNorm, Changes, Pid;
  }

  /** A run of fixes that counts none of them found them all idle, and writes nothing. */
  lemma {:induction false} UncountedFixes(c: Context, s: State, fs: seq<FixEntry>)
    requires Intact(c, s.db) && Truthful(s) && forall r | r in s.planned :: s.planned[r].Some?
    ensures var s' := AllFixes(c, s, fs, true);
      && s'.counts.fix >= s.counts.fix && s'.counts == s.counts.(fix := s'.counts.fix, skipped := s'.counts.skipped)
      && (s'.counts.fix == s.counts.fix <==> forall f | f in fs :: FixIdle(c, ReadingsOf(s.db), f))
      && (s'.counts.fix == s.counts.fix ==>
            s'.db == s.db && Truthful(s') && forall r | r in s'.planned :: s'.planned[r].Some?)
  {
    if fs != [] {
      var init, f := fs[..|fs| - 1], fs[|fs| - 1];
      assert fs == init + [f];
      var s1 := AllFixes(c, s, init, true);
      UncountedFixes(c, s, init);
      FixJudged(c, s1, f, true);
      if s1.counts.fix == s.counts.fix && FixIdle(c, ReadingsOf(s.db), f) { IdleFixSkips(c, s1, f); }
      hide FixStep, FixIdle, Truthful, ReadingsOf;
    }
  }

  lemma IdleRenameSkips(c: Context, s: State, e: RenameEntry)
    requires RenameIdle(ReadingsOf(s.db), e)
    ensures RenameStep(c, s, e, true).db == s.db
  {
    if e.ref in s.db.rios { RenameChanges(s.db.rios[e.ref].n, e.to); }
    hide Changes, Placeless;
  }

  lemma {:induction false} UncountedRenames(c: Context, s: State, rs: seq<RenameEntry>)
    ensures var s' := AllRenames(c, s, rs, true);
      && s'.counts.rename >= s.counts.rename && s'.planned == s.planned
      && s'.counts == s.counts.(rename := s'.counts.rename, skipped := s'.counts.skipped)
      && (s'.counts.rename == s.counts.rename <==> forall e | e in rs :: RenameIdle(ReadingsOf(s.db), e))
      && (s'.counts.rename == s.counts.rename ==> s'.db == s.db)
  {
    if rs != [] {
      var init, e := rs[..|rs| - 1], rs[|rs| - 1];
      assert rs == init + [e];
      var s1 := AllRenames(c, s, init, true);
      UncountedRenames(c, s, init);
      RenameJudged(c, s1, e, true);
      RenameIsLocal(c, s1, e, true);
      if s1.counts.rename == s.counts.rename && RenameIdle(ReadingsOf(s.db), e) { IdleRenameSkips(c, s1, e); }
      hide RenameStep, RenameIdle, ReadingsOf;
    }
  }

  /** Discarding the twins leaves none, and wakes no entry. */
  lemma NoTwinIsLeft(c: Context, s: State, again: State)
    requires Intact(c, s.db) && Truthful(s) && Truthful(again)
    requires forall r | r in again.planned :: again.planned[r].Some?
    requires again.db == Discarded(s.db, Twins(s.db, s.planned))
    ensures Twins(again.db, again.planned) == {}
  {
    var twins := Twins(s.db, s.planned);
    forall r | r in again.db.rios ensures HasMar(again.db, r) == HasMar(s.db, r) {}
    forall r | r in again.db.rios && again.db.rios[r].routing == "mar"
      ensures Standing(again.db, again.planned, r) == Standing(s.db, s.planned, r)
    {
      assert again.db.rios[r] == s.db.rios[r];
    }
    forall p | p in InMar(again.db, again.planned) ensures p in InMar(s.db, s.planned) {
      var q :| q in again.db.rios && HasMar(again.db, q)
               && again.db.rios[q].routing == "mar" && again.db.rios[q].attraction
               && Standing(again.db, again.planned, q) == p;
      assert Standing(s.db, s.planned, q) in InMar(s.db, s.planned);
    }
    forall r | r in again.db.rios && again.db.rios[r].routing == "mar"
      ensures r !in Twins(again.db, again.planned)
    {
      assert r !in twins;
    }
    assert Twins(again.db, again.planned) == {};
  }

  lemma NothingDiscarded(db: Db)
    ensures Discarded(db, {}) == db
  {
  }

  lemma DiscardKeeps(c: Context, s: State, es: seq<MergeEntry>)
    requires Intact(c, s.db) && forall e | e in es :: MergeIdle(s.db, e)
    ensures var db := TwinStep(s, true).db;
      Intact(c, db) && ReadingsOf(db) == ReadingsOf(s.db) && forall e | e in es :: MergeIdle(db, e)
  {
    var db := TwinStep(s, true).db;
    hide Twins, Placeless;
    assert Decays(s.db, db);
    forall e | e in es ensures MergeIdle(db, e) { MergeStaysIdle(s.db, db, e); }
  }

  /** Every entry has nothing to do on these records. */
  predicate AllIdle(c: Context, m: Manifest, at: Readings) {
    (forall f | f in m.fixes :: FixIdle(c, at, f)) && forall e | e in m.renames :: RenameIdle(at, e)
  }

  lemma FirstLeaves(c: Context, db: Db, m: Manifest)
    requires Intact(c, db)
    ensures var s, db' := Edits(c, db, m, true), RunOf(c, db, m, true).db;
      && Intact(c, s.db) && Truthful(s) && Intact(c, db') && db' == Discarded(s.db, Twins(s.db, s.planned))
      && (forall e | e in m.attractions :: MergeIdle(db', e))
      && ReadingsOf(db') == LeftToRename(c, db, m, |m.renames|)
  {
    EditsAreAll(c, db, m, true);
    RenamedDecays(c, db, m, |m.renames|);
    RenameFindsTheFold(c, db, m, |m.renames|);
    hide Edits, Renamed, Truthful, MergeIdle, ReadingsOf, LeftToRename, Twins, Discarded;
    DiscardKeeps(c, Edits(c, db, m, true), m.attractions);
  }

  lemma SecondEdits(c: Context, db: Db, m: Manifest)
    requires Intact(c, db) && forall e | e in m.attractions :: MergeIdle(db, e)
    ensures var t := Edits(c, db, m, true);
      && t.counts.merge == 0 && t.counts.samePlace == 0
      && (t.counts.fix == 0 && t.counts.rename == 0 <==> AllIdle(c, m, ReadingsOf(db)))
      && (AllIdle(c, m, ReadingsOf(db)) ==>
            t.db == db && Truthful(t) && forall r | r in t.planned :: t.planned[r].Some?)
  {
    IdleMergesSkip(c, db, m.attractions);
    var t1 := AllMerges(c, State(db, map[], NOTHING), m.attractions, true);
    assert Truthful(t1);
    UncountedFixes(c, t1, m.fixes);
    var t2 := AllFixes(c, t1, m.fixes, true);
    UncountedRenames(c, t2, m.renames);
    hide AllMerges, AllFixes, AllRenames, FixIdle, RenameIdle, Truthful, MergeIdle, ReadingsOf;
  }

  /** A second --apply, whenever it runs, counts nothing but skips exactly when the first one leaves
      every entry idle; then it changes no record. Merges and twins never come back. */
  lemma SecondApplyOnlySkipsIffIdle(c: Context, db: Db, m: Manifest, later: int)
    requires Intact(c, db)
    ensures var first := RunOf(c, db, m, true);
      Intact(c, first.db) &&
      var second := RunOf(c.(now := later), first.db, m, true);
      && (second.counts == NOTHING.(skipped := second.counts.skipped) <==>
            AllIdle(c, m, LeftToRename(c, db, m, |m.renames|)))
      && (AllIdle(c, m, LeftToRename(c, db, m, |m.renames|)) ==> second.db == first.db)
  {
    var db', c' := RunOf(c, db, m, true).db, c.(now := later);
    FirstLeaves(c, db, m);
    var s := Edits(c, db, m, true);
    SecondEdits(c', db', m);
    var t := Edits(c', db', m, true);
    SameIdle(c, c', m, ReadingsOf(db'));
    hide Edits, Twins, Discarded, AllIdle, MergeIdle, Truthful, ReadingsOf, LeftToRename;
    if AllIdle(c, m, ReadingsOf(db')) {
      NoTwinIsLeft(c, s, t);
      NothingDiscarded(db');
    }
  }

  lemma SameIdle(c: Context, c': Context, m: Manifest, at: Readings)
    requires c.municipios == c'.municipios
    ensures AllIdle(c, m, at) <==> AllIdle(c', m, at)
  {
    forall f | f in m.fixes ensures FixIdle(c, at, f) <==> FixIdle(c', at, f) {}
  }

  // ---- Settled manifests ----------------------------------------------------------------------

  /** The settings of two fixes of one record do not contradict each other. */
  predicate FixesAgree(c: Context, f: FixEntry, g: FixEntry) {
    f.ref == g.ref && Accepted(c, f) && Accepted(c, g) ==>
      && (f.municipio != "" && g.municipio != "" ==> f.municipio == g.municipio)
      && (Coords(f) && Coords(g) ==> f.lat == g.lat && f.lng == g.lng)
      && (f.name != "" && g.name != "" ==> f.name == g.name)
  }

  predicate NamesAgree(c: Context, f: FixEntry, e: RenameEntry) {
    f.ref == e.ref && f.name != "" && Accepted(c, f) ==> f.name == e.to
  }

  /** All that the manifest sets for a record it finds, it sets alike. */
  predicate Settled(c: Context, m: Manifest, there: set<Ref>) {
    && (forall f, g | f in m.fixes && g in m.fixes && f.ref in there :: FixesAgree(c, f, g))
    && (forall f, e | f in m.fixes && e in m.renames && f.ref in there :: NamesAgree(c, f, e))
    && (forall e, e' | e in m.renames && e' in m.renames && e.ref in there :: e.ref == e'.ref ==> e.to == e'.to)
  }

  predicate FiledByCode(c: Context) {
    forall k | k in c.municipios :: c.municipios[k].code == k
  }

  lemma AfterBoth(c: Context, x: Reading, f: FixEntry, g: FixEntry)
    requires FiledByCode(c) && Accepted(c, f) && Accepted(c, g) && FixesAgree(c, g, f) && f.ref == g.ref
    requires AfterFix(c, x, g) == x
    ensures AfterFix(c, AfterFix(c, x, f), g) == AfterFix(c, x, f)
  {
  }

  lemma AfterItself(c: Context, x: Reading, f: FixEntry)
    requires Accepted(c, f)
    ensures AfterFix(c, AfterFix(c, x, f), f) == AfterFix(c, x, f)
  {
  }

  lemma FixStaysIdle(c: Context, m: Readings, f: FixEntry, g: FixEntry)
    requires FiledByCode(c)
    requires FixIdle(c, m, g) && (g.ref in m ==> FixesAgree(c, g, f)) && (g.ref in FixReadings(c, m, f) ==> g.ref in m)
    ensures FixIdle(c, FixReadings(c, m, f), g)
  {
    if f.ref == g.ref && f.ref in m && Accepted(c, f) && Accepted(c, g) { AfterBoth(c, m[f.ref], f, g); }
    hide AfterFix, DestinoRef, FixesAgree;
  }

  lemma FixLeavesItselfIdle(c: Context, m: Readings, f: FixEntry)
    ensures FixIdle(c, FixReadings(c, m, f), f)
  {
    if f.ref in m && Accepted(c, f) { AfterItself(c, m[f.ref], f); }
    hide AfterFix, DestinoRef;
  }

  lemma {:induction false} FixesSettle(c: Context, m: Readings, fs: seq<FixEntry>)
    requires FiledByCode(c)
    requires forall f, g | f in fs && g in fs && f.ref in m :: FixesAgree(c, f, g)
    requires forall f | f in fs && f.ref in AllFixReadings(c, m, fs) :: f.ref in m
    ensures forall f | f in fs :: FixIdle(c, AllFixReadings(c, m, fs), f)
  {
    if fs != [] {
      var init, f := fs[..|fs| - 1], fs[|fs| - 1];
      assert fs == init + [f];
      var before := AllFixReadings(c, m, init);
      ReadingsStay(c, m, init);
      FixKeepsRecords(c, before, f);
      hide FixReadings, FixIdle, FixesAgree;
      FixesSettle(c, m, init);
      FixLeavesItselfIdle(c, before, f);
      forall g | g in init ensures FixIdle(c, FixReadings(c, before, f), g) {
        assert g in fs && f in fs;
        FixStaysIdle(c, before, f, g);
      }
    }
  }

  lemma FixKeepsRecords(c: Context, m: Readings, f: FixEntry)
    ensures m.Keys <= FixReadings(c, m, f).Keys
  {
    hide AfterFix, DestinoRef;
  }

  lemma RenameStaysIdle(c: Context, m: Readings, e: RenameEntry, fs: seq<FixEntry>, rs: seq<RenameEntry>)
    requires forall f | f in fs :: FixIdle(c, m, f) && (f.ref in m ==> NamesAgree(c, f, e))
    requires forall e' | e' in rs :: RenameIdle(m, e') && (e'.ref == e.ref && e.ref in m ==> e'.to == e.to)
    ensures RenameReadings(m, e).Keys == m.Keys && RenameIdle(RenameReadings(m, e), e)
    ensures forall f | f in fs :: FixIdle(c, RenameReadings(m, e), f)
    ensures forall e' | e' in rs :: RenameIdle(RenameReadings(m, e), e')
  {
    forall f | f in fs ensures FixIdle(c, RenameReadings(m, e), f) {
      assert FixIdle(c, m, f);
      if f.ref == e.ref && f.ref in m && Accepted(c, f) { RenamedStaysFixed(c, m[f.ref], f, e); }
      hide AfterFix;
    }
  }

  lemma RenamedStaysFixed(c: Context, x: Reading, f: FixEntry, e: RenameEntry)
    requires Accepted(c, f) && AfterFix(c, x, f) == x && f.ref == e.ref && NamesAgree(c, f, e)
    ensures AfterFix(c, x.(name := Text(e.to)), f) == x.(name := Text(e.to))
  {
  }

  lemma {:induction false} RenamesSettle(c: Context, m: Readings, fs: seq<FixEntry>, rs: seq<RenameEntry>)
    requires forall f | f in fs :: FixIdle(c, m, f)
    requires forall f, e | f in fs && e in rs && f.ref in m :: NamesAgree(c, f, e)
    requires forall e, e' | e in rs && e' in rs && e.ref in m :: e.ref == e'.ref ==> e.to == e'.to
    ensures var at := AllRenameReadings(m, rs);
      at.Keys == m.Keys && (forall f | f in fs :: FixIdle(c, at, f)) && forall e | e in rs :: RenameIdle(at, e)
  {
    if rs != [] {
      var init, e := rs[..|rs| - 1], rs[|rs| - 1];
      assert rs == init + [e] && e in rs;
      RenamesSettle(c, m, fs, init);
      RenameStaysIdle(c, AllRenameReadings(m, init), e, fs, init);
      hide RenameReadings, FixIdle, RenameIdle, NamesAgree;
    }
  }

  lemma {:induction false} RenamesKeepRecords(m: Readings, rs: seq<RenameEntry>)
    ensures AllRenameReadings(m, rs).Keys == m.Keys
  {
    if rs != [] { RenamesKeepRecords(m, rs[..|rs| - 1]); }
  }

  lemma IdleFixesAgree(c: Context, at: Readings, f: FixEntry, g: FixEntry)
    requires FiledByCode(c) && f.ref in at
    requires FixIdle(c, at, f) && FixIdle(c, at, g)
    ensures FixesAgree(c, f, g)
  {
  }

  lemma IdleNamesAgree(c: Context, at: Readings, f: FixEntry, e: RenameEntry)
    requires f.ref in at && FixIdle(c, at, f) && RenameIdle(at, e)
    ensures NamesAgree(c, f, e)
  {
  }

  /** No fix names a destino that the run itself makes. */
  predicate FixesNoNewDestino(c: Context, db: Db, m: Manifest) {
    forall f | f in m.fixes && f.ref in LeftToFix(c, db, m, |m.fixes|) :: f.ref in db.rios
  }

  lemma IdleIffSettled(c: Context, db: Db, m: Manifest)
    requires Intact(c, db) && FixesNoNewDestino(c, db, m)
    ensures var at := LeftToRename(c, db, m, |m.renames|);
      AllIdle(c, m, at) <==> Settled(c, m, at.Keys)
  {
    var fixed, at := LeftToFix(c, db, m, |m.fixes|), LeftToRename(c, db, m, |m.renames|);
    assert m.fixes[..|m.fixes|] == m.fixes && m.renames[..|m.renames|] == m.renames;
    RenamesKeepRecords(fixed, m.renames);
    ReadingsStay(c, ReadingsOf(db), m.fixes);
    hide FixIdle, RenameIdle, FixesAgree, NamesAgree;
    if Settled(c, m, at.Keys) {
      FixesSettle(c, ReadingsOf(db), m.fixes);
      RenamesSettle(c, fixed, m.fixes, m.renames);
    }
    if AllIdle(c, m, at) {
      forall f, g | f in m.fixes && g in m.fixes && f.ref in at ensures FixesAgree(c, f, g) {
        IdleFixesAgree(c, at, f, g);
      }
      forall f, e | f in m.fixes && e in m.renames && f.ref in at ensures NamesAgree(c, f, e) {
        IdleNamesAgree(c, at, f, e);
      }
      forall e, e' | e in m.renames && e' in m.renames && e.ref in at && e.ref == e'.ref ensures e.to == e'.to {
        assert RenameIdle(at, e) && RenameIdle(at, e');
        BothNames(at, e, e');
      }
    }
  }

  lemma BothNames(at: Readings, e: RenameEntry, e': RenameEntry)
    requires RenameIdle(at, e) && RenameIdle(at, e') && e.ref == e'.ref && e.ref in at
    ensures e.to == e'.to
  {
  }

  /** So a second --apply counts nothing but skips exactly when all that the manifest sets for each
      record it finds, by fixes and by renames, it sets alike. */
  lemma SecondApplyOnlySkipsIffSettled(c: Context, db: Db, m: Manifest, later: int)
    requires Intact(c, db) && FixesNoNewDestino(c, db, m)
    ensures var first := RunOf(c, db, m, true);
      Intact(c, first.db) &&
      var second := RunOf(c.(now := later), first.db, m, true);
      && (second.counts == NOTHING.(skipped := second.counts.skipped) <==> Settled(c, m, first.db.rios.Keys))
      && (Settled(c, m, first.db.rios.Keys) ==> second.db == first.db)
  {
    SecondApplyOnlySkipsIffIdle(c, db, m, later);
    IdleIffSettled(c, db, m);
    FirstLeaves(c, db, m);
    assert RunOf(c, db, m, true).db.rios.Keys == ReadingsOf(RunOf(c, db, m, true).db).Keys;
    hide RunOf, Edits, AllIdle, Settled, LeftToRename, ReadingsOf, FixesNoNewDestino, Twins, Discarded, Truthful;
  }

  // ---- Instances ------------------------------------------------------------------------------

  /** One fix clears the place, the next one of the record only names it: the dry run goes on with
      the old place id, --apply with none. */
  lemma ClearedThenNamed(c: Context, db: Db, f: FixEntry, g: FixEntry)
    requires Intact(c, db) && f.ref == g.ref && f.ref in db.rios && Accepted(c, f) && Accepted(c, g)
    requires f.clearPlace && !g.clearPlace && Pid(db.rios[f.ref].n).Some?
    ensures LastFix(c, [f, g], 1) && !PlaceAlike(c, db, [f, g], 1)
  {
    assert [f, g][..1] == [f] && [f][..0] == [];
    var m := ReadingsOf(db);
    assert AllFixReadings(c, m, [f]) == FixReadings(c, AllFixReadings(c, m, []), f);
    hide Placeless, DestinoRef;
  }

  /** The same rename listed twice: the dry run counts it twice, --apply once. */
  lemma RepeatedRenameMiscounts(c: Context, db: Db, r: RenameEntry)
    requires Intact(c, db) && r.ref in db.rios && At(db.rios[r.ref].n, Name) != Text(r.to)
    ensures var s := State(db, map[], NOTHING);
      AllRenames(c, s, [r, r], false).counts.rename == 2 && AllRenames(c, s, [r, r], true).counts.rename == 1
  {
    TwoRenames(c, State(db, map[], NOTHING), r, r, false);
    TwoRenames(c, State(db, map[], NOTHING), r, r, true);
    RenameChanges(db.rios[r.ref].n, r.to);
    RenameChanges(db.rios[r.ref].n[Name := Text(r.to)], r.to);
  }

  /** Two names for one record never settle: every further --apply writes it twice more. */
  lemma TwoNamesNeverSettle(c: Context, s: State, r: RenameEntry, r': RenameEntry)
    requires r.ref == r'.ref && r.to != r'.to && r.ref in s.db.rios && At(s.db.rios[r.ref].n, Name) == Text(r'.to)
    ensures AllRenames(c, s, [r, r'], true).counts.rename == s.counts.rename + 2
    ensures var s' := AllRenames(c, s, [r, r'], true);
      r.ref in s'.db.rios && At(s'.db.rios[r.ref].n, Name) == Text(r'.to)
  {
    TwoRenames(c, s, r, r', true);
    RenameChanges(s.db.rios[r.ref].n, r.to);
    RenameChanges(s.db.rios[r.ref].n[Name := Text(r.to)], r'.to);
  }

  lemma TwoRenames(c: Context, s: State, r: RenameEntry, r': RenameEntry, apply: bool)
    ensures AllRenames(c, s, [r, r'], apply) == RenameStep(c, RenameStep(c, s, r, apply), r', apply)
  {
    assert [r, r'][..1] == [r] && [r, r'][1] == r' && [r][..0] == [];
    assert AllRenames(c, s, [r], apply) == RenameStep(c, AllRenames(c, s, [], apply), r, apply);
  }
}
