/**
 What --apply writes beside the readings: the stamp the outbox looks for, and a moved record's
 state, parent and distrito.
 */
module TerritorialStamps {
  import opened Common
  import opened TerritorialFixes
  import opened TerritorialReadings
  import opened TerritorialRuns

  // ---- The stamp ----------------------------------------------------------------------------

  /** A record as an --apply at `now` leaves it: counted and stamped, or not counted and as it was. */
  predicate Stamped(before: Rio, after: Rio, counted: bool, now: int) {
    if counted then after.processedAt == now else after == before
  }

  lemma FixStamps(c: Context, s: State, f: FixEntry, r: Ref)
    requires r in s.db.rios
    ensures var s' := FixStep(c, s, f, true);
      r in s'.db.rios && Stamped(s.db.rios[r], s'.db.rios[r], r == f.ref && s'.counts.fix > s.counts.fix, c.now)
  {
    hide FixedNorm, Changes, Pid;
    FixIsLocal(c, s, f, true);
  }

  lemma RenameStamps(c: Context, s: State, e: RenameEntry, r: Ref)
    requires r in s.db.rios
    ensures var s' := RenameStep(c, s, e, true);
      r in s'.db.rios && Stamped(s.db.rios[r], s'.db.rios[r], r == e.ref && s'.counts.rename > s.counts.rename, c.now)
  {
    hide Changes;
  }

  /** Some entry of the run about this record was counted. */
  ghost predicate FixTouched(c: Context, db: Db, m: Manifest, n: nat, r: Ref)
    requires Intact(c, db) && n <= |m.fixes|
  {
    exists i | 0 <= i < n :: m.fixes[i].ref == r && FixCounted(c, db, m, i, true)
  }

  ghost predicate RenameTouched(c: Context, db: Db, m: Manifest, n: nat, r: Ref)
    requires Intact(c, db) && n <= |m.renames|
  {
    exists i | 0 <= i < n :: m.renames[i].ref == r && RenameCounted(c, db, m, i, true)
  }

  lemma {:induction false} FixesStamp(c: Context, db: Db, m: Manifest, n: nat, r: Ref)
    requires Intact(c, db) && n <= |m.fixes| && r in db.rios
    ensures var s := Fixed(c, db, m, n, true);
      r in s.db.rios && s.db.rios[r].processedAt ==
        if FixTouched(c, db, m, n, r) then c.now else db.rios[r].processedAt
  {
    if n == 0 {
      AppliedMergesOnlyDrop(c, db, m.attractions);
      hide AllMerges;
    } else {
      FixesStamp(c, db, m, n - 1, r);
      FixedFurther(c, db, m, n - 1, true);
      FixStamps(c, Fixed(c, db, m, n - 1, true), m.fixes[n - 1], r);
      FixTouchedFurther(c, db, m, n - 1, r);
      hide FixTouched, Fixed, FixStep, LeftToFix;
    }
  }

  lemma FixTouchedFurther(c: Context, db: Db, m: Manifest, n: nat, r: Ref)
    requires Intact(c, db) && n < |m.fixes|
    ensures FixTouched(c, db, m, n + 1, r) <==>
      FixTouched(c, db, m, n, r) || (m.fixes[n].ref == r && FixCounted(c, db, m, n, true))
  {
    hide FixCounted;
  }

  lemma RenameTouchedFurther(c: Context, db: Db, m: Manifest, n: nat, r: Ref)
    requires Intact(c, db) && n < |m.renames|
    ensures RenameTouched(c, db, m, n + 1, r) <==>
      RenameTouched(c, db, m, n, r) || (m.renames[n].ref == r && RenameCounted(c, db, m, n, true))
  {
    hide RenameCounted;
  }

  lemma {:induction false} RenamesStamp(c: Context, db: Db, m: Manifest, n: nat, r: Ref)
    requires Intact(c, db) && n <= |m.renames| && r in db.rios
    ensures var s := Renamed(c, db, m, n, true);
      r in s.db.rios && s.db.rios[r].processedAt ==
        if FixTouched(c, db, m, |m.fixes|, r) || RenameTouched(c, db, m, n, r) then c.now else db.rios[r].processedAt
  {
    if n == 0 {
      FixesStamp(c, db, m, |m.fixes|, r);
      hide FixTouched, Fixed;
    } else {
      RenamesStamp(c, db, m, n - 1, r);
      RenamedFurther(c, db, m, n - 1, true);
      RenameStamps(c, Renamed(c, db, m, n - 1, true), m.renames[n - 1], r);
      RenameTouchedFurther(c, db, m, n - 1, r);
      hide FixTouched, RenameTouched, Renamed, RenameStep, LeftToRename;
    }
  }

  /** Over a whole --apply a record carries the run's time exactly when a fix or a rename of it was
      counted; merges and twins stamp nothing. */
  lemma StampedIffCounted(c: Context, db: Db, m: Manifest, r: Ref)
    requires Intact(c, db) && r in db.rios
    ensures var after := RunOf(c, db, m, true).db;
      r in after.rios && after.rios[r].processedAt ==
        if FixTouched(c, db, m, |m.fixes|, r) || RenameTouched(c, db, m, |m.renames|, r)
        then c.now else db.rios[r].processedAt
  {
    RenamesStamp(c, db, m, |m.renames|, r);
    EditsAreAll(c, db, m, true);
    hide Edits, Renamed, FixTouched, RenameTouched, Twins;
  }

  // ---- A moved record -----------------------------------------------------------------------

  /** The record stands in a município of the table, with its state, its destino for a parent and no
      distrito left. */
  ghost predicate LinkedTo(c: Context, mars: set<Ref>, rio: Rio) {
    && rio.municipio.Some? && rio.municipio.value in c.municipios
    && var m := c.municipios[rio.municipio.value];
       && rio.uf == m.uf
       && At(rio.n, ParentSourceRef) == Text("ibge:" + m.uf + ":" + m.code)
       && At(rio.n, ParentRioId) == Text("ibge:" + m.uf + ":" + m.code)
       && At(rio.n, ParentMarId) ==
            (if "ibge:" + m.uf + ":" + m.code in mars then Text("ibge:" + m.uf + ":" + m.code) else Null)
       && At(rio.n, DistritoName) == At(rio.n, DistritoCode) == At(rio.n, DistritoMunicipioIbge) == Null
       && At(rio.n, SubdistritoName) == At(rio.n, SubdistritoCode) == At(rio.n, DistritoSource) == Null
  }

  /** The keys a move writes, apart from the município's name and code. */
  predicate MoveKey(k: Field) {
    k in [ParentRioId, ParentSourceRef, ParentMarId] || k in DISTRITO_KEYS
  }

  lemma ClearedKeeps(n: Norm, f: FixEntry, k: Field)
    requires MoveKey(k)
    ensures At(Cleared(n, f), k) == At(n, k) || (k in DISTRITO_KEYS && At(Cleared(n, f), k) == Null)
  {
    NullOutAt(n, PLACE_KEYS);
    NullOutAt(NullOut(n, PLACE_KEYS), DISTRITO_KEYS);
    hide NullOut;
  }

  lemma PlacedKeeps(n: Norm, f: FixEntry, k: Field)
    requires MoveKey(k)
    ensures At(Placed(n, f), k) == At(n, k)
  {
    PlacedAt(n, f, k);
    hide Placed;
  }

  lemma MovedLinks(rio: Rio, m: Municipio, parent: Norm, k: Field)
    requires MoveKey(k) && Moves(rio, Some(m)) && parent.Keys == {ParentRioId, ParentSourceRef, ParentMarId}
    ensures At(Relinked(rio.n, rio, Some(m), parent), k) == if k in parent then parent[k] else Null
  {
    NullOutAt(rio.n, DISTRITO_KEYS);
    hide NullOut;
  }

  /** What a fix leaves of the keys of a move: the new link, or what was there. */
  lemma LinksAfterFix(c: Context, db: Db, f: FixEntry, k: Field)
    requires Fixable(c, db, f) && MoveKey(k)
    ensures var rio, m := db.rios[f.ref], FixMunicipio(c, f);
      var x := At(FixedNorm(c, db, f, true), k);
      if Moves(rio, m) then x == if k in DISTRITO_KEYS then Null else Parent(db, m.value, true)[k]
      else x == At(rio.n, k) || (k in DISTRITO_KEYS && x == Null)
  {
    var rio, m := db.rios[f.ref], FixMunicipio(c, f);
    var n1 := Relinked(rio.n, rio, m, if m.Some? then Parent(db, m.value, true) else map[]);
    PlacedKeeps(n1, f, k);
    ClearedKeeps(Placed(n1, f), f, k);
    if Moves(rio, m) {
      MovedLinks(rio, m.value, Parent(db, m.value, true), k);
      ParentKeys(db, m.value, k);
    } else {
      UnmovedLinks(rio, m, if m.Some? then Parent(db, m.value, true) else map[], k);
    }
    hide Placed, Cleared, Relinked, Parent, Moves;
  }

  lemma ParentKeys(db: Db, m: Municipio, k: Field)
    requires MoveKey(k)
    ensures k in Parent(db, m, true) <==> k !in DISTRITO_KEYS
  {
  }

  lemma UnmovedLinks(rio: Rio, m: Option<Municipio>, parent: Norm, k: Field)
    requires MoveKey(k) && !Moves(rio, m)
    ensures At(Relinked(rio.n, rio, m, parent), k) == At(rio.n, k)
  {
  }

  /** A fix that moves a record links it to the new município; every other fix leaves the link. */
  lemma FixLinks(c: Context, s: State, f: FixEntry)
    requires Intact(c, s.db) && Fixable(c, s.db, f)
    ensures var rio, s' := s.db.rios[f.ref], FixStep(c, s, f, true);
      && f.ref in s'.db.rios
      && (Moves(rio, FixMunicipio(c, f)) ==>
            LinkedTo(c, s.db.mars.Keys, s'.db.rios[f.ref]) && s'.db.rios[f.ref].municipio == Some(f.municipio))
      && (!Moves(rio, FixMunicipio(c, f)) ==>
            s'.db.rios[f.ref].municipio == rio.municipio && s'.db.rios[f.ref].uf == rio.uf
            && (LinkedTo(c, s.db.mars.Keys, rio) ==> LinkedTo(c, s.db.mars.Keys, s'.db.rios[f.ref])))
  {
    var rio, after, m := s.db.rios[f.ref], FixedNorm(c, s.db, f, true), FixMunicipio(c, f);
    FixWrites(c, s, f);
    FixedNormKeepsKeys(c, s.db, f, true);
    LandedReads(rio, after, m, c.now);
    var x := Landed(rio, after, m, c.now);
    LandedUf(rio, after, m, c.now);
    forall k | MoveKey(k)
      ensures if Moves(rio, m) then At(x.n, k) == if k in DISTRITO_KEYS then Null else Parent(s.db, m.value, true)[k]
        else At(x.n, k) == At(rio.n, k) || (k in DISTRITO_KEYS && At(x.n, k) == Null)
    {
      LinksAfterFix(c, s.db, f, k);
    }
    hide FixStep, FixedNorm, Landed;
    SixDistritoKeys();
    if Moves(rio, m) { ParentIsTheDestino(s.db, m.value); }
    hide MoveKey, At, Parent;
  }

  lemma SixDistritoKeys()
    ensures MoveKey(ParentRioId) && MoveKey(ParentSourceRef) && MoveKey(ParentMarId)
    ensures forall k | k in [ParentRioId, ParentSourceRef, ParentMarId] :: k !in DISTRITO_KEYS
    ensures forall k | k in [DistritoName, DistritoCode, DistritoMunicipioIbge, SubdistritoName, SubdistritoCode,
                             DistritoSource] :: MoveKey(k) && k in DISTRITO_KEYS
  {
  }

  lemma ParentIsTheDestino(db: Db, m: Municipio)
    ensures Parent(db, m, true).Keys == {ParentRioId, ParentSourceRef, ParentMarId}
    ensures Parent(db, m, true)[ParentRioId] == Parent(db, m, true)[ParentSourceRef] ==
      Text("ibge:" + m.uf + ":" + m.code)
    ensures Parent(db, m, true)[ParentMarId] ==
      if "ibge:" + m.uf + ":" + m.code in db.mars then Text("ibge:" + m.uf + ":" + m.code) else Null
  {
  }

  /** Where --apply's record stands against the one before the run. */
  ghost predicate StandsAs(c: Context, mars: set<Ref>, o: Rio, x: Rio) {
    (x.municipio == o.municipio && x.uf == o.uf) || LinkedTo(c, mars, x)
  }

  lemma FixKeepsPlaced(c: Context, s: State, f: FixEntry, r: Ref, o: Rio)
    requires Intact(c, s.db) && r in s.db.rios && StandsAs(c, s.db.mars.Keys, o, s.db.rios[r])
    ensures var s' := FixStep(c, s, f, true);
      s'.db.mars.Keys == s.db.mars.Keys && r in s'.db.rios && StandsAs(c, s.db.mars.Keys, o, s'.db.rios[r])
  {
    hide FixStep, LinkedTo, Moves, FixMunicipio, Fixable, Prefixed;
    FixIsLocal(c, s, f, true);
    if r == f.ref {
      if !Fixable(c, s.db, f) {
        FixRefused(c, s, f, true);
      } else {
        FixLinks(c, s, f);
      }
    }
  }

  lemma RenameKeepsPlaced(c: Context, s: State, e: RenameEntry, r: Ref, o: Rio)
    requires r in s.db.rios && StandsAs(c, s.db.mars.Keys, o, s.db.rios[r])
    ensures var s' := RenameStep(c, s, e, true);
      s'.db.mars.Keys == s.db.mars.Keys && r in s'.db.rios && StandsAs(c, s.db.mars.Keys, o, s'.db.rios[r])
  {
    RenameIsLocal(c, s, e, true);
    if r == e.ref { RenameKeepsLinks(c, s, e); }
    hide RenameStep;
  }

  lemma RenameKeepsLinks(c: Context, s: State, e: RenameEntry)
    requires e.ref in s.db.rios
    ensures var rio, s' := s.db.rios[e.ref], RenameStep(c, s, e, true);
      && e.ref in s'.db.rios && s'.db.rios[e.ref].uf == rio.uf && s'.db.rios[e.ref].municipio == rio.municipio
      && forall k | k != Name :: At(s'.db.rios[e.ref].n, k) == At(rio.n, k)
  {
    RenamedFields(c, s, e);
    hide Changes;
  }

  lemma {:induction false} FixesKeepPlaced(c: Context, db: Db, m: Manifest, n: nat, r: Ref)
    requires Intact(c, db) && n <= |m.fixes| && r in db.rios
    ensures var s := Fixed(c, db, m, n, true);
      s.db.mars.Keys == db.mars.Keys && r in s.db.rios && StandsAs(c, db.mars.Keys, db.rios[r], s.db.rios[r])
  {
    if n == 0 {
      AppliedMergesOnlyDrop(c, db, m.attractions);
      hide AllMerges;
    } else {
      FixesKeepPlaced(c, db, m, n - 1, r);
      FixFindsTheFold(c, db, m, n - 1);
      FixedFurther(c, db, m, n - 1, true);
      FixKeepsPlaced(c, Fixed(c, db, m, n - 1, true), m.fixes[n - 1], r, db.rios[r]);
      hide Fixed, FixStep, LeftToFix, ReadingsOf, StandsAs;
    }
  }

  lemma {:induction false} RenamesKeepPlaced(c: Context, db: Db, m: Manifest, n: nat, r: Ref)
    requires Intact(c, db) && n <= |m.renames| && r in db.rios
    ensures var s := Renamed(c, db, m, n, true);
      s.db.mars.Keys == db.mars.Keys && r in s.db.rios && StandsAs(c, db.mars.Keys, db.rios[r], s.db.rios[r])
  {
    if n == 0 {
      FixesKeepPlaced(c, db, m, |m.fixes|, r);
      hide Fixed, StandsAs;
    } else {
      RenamesKeepPlaced(c, db, m, n - 1, r);
      RenamedFurther(c, db, m, n - 1, true);
      RenameKeepsPlaced(c, Renamed(c, db, m, n - 1, true), m.renames[n - 1], r, db.rios[r]);
      hide Renamed, RenameStep, LeftToRename, StandsAs;
    }
  }

  /** After a whole --apply, a record in another município than before it has the new one's state
      and destino and no distrito; a record that was never moved keeps its state. */
  lemma MovedIsLinked(c: Context, db: Db, m: Manifest, r: Ref)
    requires Intact(c, db) && r in db.rios
    ensures var after := RunOf(c, db, m, true).db;
      && r in after.rios
      && (after.rios[r].municipio != db.rios[r].municipio ==> LinkedTo(c, db.mars.Keys, after.rios[r]))
      && (after.rios[r].uf != db.rios[r].uf ==> LinkedTo(c, db.mars.Keys, after.rios[r]))
  {
    RenamesKeepPlaced(c, db, m, |m.renames|, r);
    EditsAreAll(c, db, m, true);
    hide Edits, Renamed, Twins;
  }

  lemma LandedUf(rio: Rio, after: Norm, m: Option<Municipio>, now: int)
    ensures Landed(rio, after, m, now).uf == if Moves(rio, m) then m.value.uf else rio.uf
  {
    hide Changes;
  }
}
