/**
 What fixes and renames look at and what they leave: nine things of a record. A run's effect on
 them is a fold over the manifest, whatever else the records hold.
 */
module TerritorialReadings {
  import opened Common
  import opened TerritorialFixes

  /** `placeless`: all of PLACE_KEYS are null. */
  datatype Reading = Reading(
    municipio: Option<Code>, nome: Val, code: Val, lat: Val, lon: Val, name: Val, pid: Val, source: Val,
    placeless: bool)

  type Readings = map<Ref, Reading>

  const FROM_PLACES: Val := Text("places_admin_area_level_3")

  function ReadingAt(municipio: Option<Code>, n: Norm): Reading {
    Reading(municipio, At(n, MunicipioName), At(n, MunicipioId), At(n, Lat), At(n, Lon), At(n, Name),
            At(n, GooglePlaceId), At(n, DistritoSource), Placeless(n))
  }

  predicate Placeless(n: Norm) {
    forall k | k in PLACE_KEYS :: At(n, k) == Null
  }

  function ReadingOf(rio: Rio): Reading {
    ReadingAt(rio.municipio, rio.n)
  }

  function ReadingsOf(db: Db): Readings {
    map r | r in db.rios :: ReadingOf(db.rios[r])
  }

  /** The fix takes the record to another município. */
  predicate Moved(c: Context, x: Reading, f: FixEntry)
    requires Accepted(c, f)
  {
    f.municipio != "" && x.municipio != Some(c.municipios[f.municipio].code)
  }

  function AfterFix(c: Context, x: Reading, f: FixEntry): Reading
    requires Accepted(c, f)
  {
    var m := FixMunicipio(c, f);
    var source := if Moved(c, x, f) then Null else x.source;
    Reading(
      if m.Some? then Some(m.value.code) else x.municipio,
      if m.Some? then Text(m.value.nome) else x.nome,
      if m.Some? then Text(m.value.code) else x.code,
      if Coords(f) then Coord(f.lat.value) else x.lat,
      if Coords(f) then Coord(f.lng.value) else x.lon,
      if f.name != "" then Text(f.name) else x.name,
      if f.clearPlace then Null else x.pid,
      if f.clearPlace && source == FROM_PLACES then Null else source,
      f.clearPlace || x.placeless)
  }

  /** A fix on a record that is there, with the destino of the município it moves the record to. */
  function FixReadings(c: Context, m: Readings, f: FixEntry): Readings {
    if f.ref !in m || !Accepted(c, f) then m
    else
      var made := if Moved(c, m[f.ref], f) && DestinoRef(c.municipios[f.municipio]) !in m
                  then m[DestinoRef(c.municipios[f.municipio]) := ReadingOf(c.newDestino)] else m;
      made[f.ref := AfterFix(c, m[f.ref], f)]
  }

  function AllFixReadings(c: Context, m: Readings, fs: seq<FixEntry>): Readings {
    if fs == [] then m else FixReadings(c, AllFixReadings(c, m, fs[..|fs| - 1]), fs[|fs| - 1])
  }

  function RenameReadings(m: Readings, e: RenameEntry): Readings {
    if e.ref in m then m[e.ref := m[e.ref].(name := Text(e.to))] else m
  }

  function AllRenameReadings(m: Readings, rs: seq<RenameEntry>): Readings {
    if rs == [] then m else RenameReadings(AllRenameReadings(m, rs[..|rs| - 1]), rs[|rs| - 1])
  }

  /** Nothing to do: refused, not there, or the record already reads as wanted. */
  predicate FixIdle(c: Context, m: Readings, f: FixEntry) {
    f.ref !in m || !Accepted(c, f) || AfterFix(c, m[f.ref], f) == m[f.ref]
  }

  predicate RenameIdle(m: Readings, e: RenameEntry) {
    e.ref !in m || m[e.ref].name == Text(e.to)
  }

  // ---- What one fix leaves of one record ----------------------------------------------------

  lemma NullOutAt(n: Norm, keys: seq<Field>)
    ensures forall k :: At(NullOut(n, keys), k) == if k in keys then Null else At(n, k)
  {
  }

  lemma RelinkedAt(rio: Rio, m: Option<Municipio>, parent: Norm, k: Field)
    requires k !in parent && k !in {MunicipioName, MunicipioId}
    ensures At(Relinked(rio.n, rio, m, parent), k) ==
      if Moves(rio, m) && k in DISTRITO_KEYS then Null else At(rio.n, k)
  {
    NullOutAt(rio.n, DISTRITO_KEYS);
    hide NullOut;
  }

  /** A fix touches its own record and maybe a destino, no other. */
  lemma FixIsLocal(c: Context, s: State, f: FixEntry, apply: bool)
    ensures var s' := FixStep(c, s, f, apply);
      && s.db.rios.Keys <= s'.db.rios.Keys && s'.db.mars == s.db.mars
      && (forall r | r in s.db.rios && r != f.ref :: s'.db.rios[r] == s.db.rios[r])
      && (forall r | r in s'.db.rios && r !in s.db.rios :: Prefixed(r, "ibge:") && s'.db.rios[r] == c.newDestino)
      && (!apply ==> s'.db == s.db)
      && s'.planned.Keys <= s.planned.Keys + {f.ref}
      && (forall r | r != f.ref && r in s.planned :: r in s'.planned && s'.planned[r] == s.planned[r])
  {
    hide FixedNorm, Changes, Pid;
  }

  /** A record as an edit leaves it, written or skipped. */
  function Landed(rio: Rio, after: Norm, m: Option<Municipio>, now: int): Rio {
    var e := Edited(rio, after, m, now);
    if e.Some? then e.value else rio
  }

  lemma LandedReads(rio: Rio, after: Norm, m: Option<Municipio>, now: int)
    requires rio.n.Keys <= after.Keys
    ensures var x := Landed(rio, after, m, now);
      && x.attraction == rio.attraction && x.routing == rio.routing
      && x.municipio == (if m.Some? then Some(m.value.code) else rio.municipio)
      && forall k :: At(x.n, k) == At(after, k)
  {
    var x := Landed(rio, after, m, now);
    forall k ensures At(x.n, k) == At(after, k) {
      if Edited(rio, after, m, now).None? {
        assert k in after ==> At(rio.n, k) == after[k];
      }
    }
  }

  lemma FixedNormKeepsKeys(c: Context, db: Db, f: FixEntry, apply: bool)
    requires Fixable(c, db, f)
    ensures db.rios[f.ref].n.Keys <= FixedNorm(c, db, f, apply).Keys
  {
  }

  /** What one fix does to its own record. */
  lemma FixLands(c: Context, s: State, f: FixEntry, apply: bool)
    requires Fixable(c, s.db, f)
    ensures var m, after, s' := FixMunicipio(c, f), FixedNorm(c, s.db, f, apply), FixStep(c, s, f, apply);
      var rio := s.db.rios[f.ref];
      && f.ref in s'.db.rios && f.ref in s'.planned
      && (apply ==> s'.db.rios[f.ref] == Landed(rio, after, m, c.now))
      && s'.planned ==
           s.planned[f.ref := Some(Place(if m.Some? then Some(m.value.code) else rio.municipio, Pid(after)))]
      && s'.counts == if Edited(rio, after, m, c.now).Some? then s.counts.(fix := s.counts.fix + 1)
                      else s.counts.(skipped := s.counts.skipped + 1)
  {
    hide FixedNorm, Changes, Pid;
  }

  lemma ClearedAt(n: Norm, f: FixEntry, k: Field)
    requires k !in DISTRITO_KEYS || k == DistritoSource
    ensures At(Cleared(n, f), k) ==
      if f.clearPlace && (k in PLACE_KEYS || (k == DistritoSource && At(n, k) == FROM_PLACES)) then Null else At(n, k)
  {
    NullOutAt(n, PLACE_KEYS);
    NullOutAt(NullOut(n, PLACE_KEYS), DISTRITO_KEYS);
    hide NullOut;
  }

  lemma PlacedAt(n: Norm, f: FixEntry, k: Field)
    ensures At(Placed(n, f), k) ==
      if k == Lat && Coords(f) then Coord(f.lat.value)
      else if k == Lon && Coords(f) then Coord(f.lng.value)
      else if k == Name && f.name != "" then Text(f.name) else At(n, k)
  {
  }

  /** The fields a fix may change besides the parent's and the distrito's. */
  predicate Plain(k: Field) {
    k !in [ParentRioId, ParentSourceRef, ParentMarId] && (k !in DISTRITO_KEYS || k == DistritoSource)
  }

  lemma LinkedAt(c: Context, db: Db, f: FixEntry, apply: bool, k: Field)
    requires Fixable(c, db, f) && Plain(k)
    ensures var rio, m := db.rios[f.ref], FixMunicipio(c, f);
      At(Relinked(rio.n, rio, m, if m.Some? then Parent(db, m.value, apply) else map[]), k) ==
        if m.Some? && k == MunicipioName then Text(m.value.nome)
        else if m.Some? && k == MunicipioId then Text(m.value.code)
        else if k == DistritoSource && Moves(rio, m) then Null else At(rio.n, k)
  {
    var rio, m := db.rios[f.ref], FixMunicipio(c, f);
    if m.Some? && k != MunicipioName && k != MunicipioId { RelinkedAt(rio, m, Parent(db, m.value, apply), k); }
    hide NullOut;
  }

  /** Field by field. */
  lemma FixedNormAt(c: Context, db: Db, f: FixEntry, apply: bool, k: Field)
    requires Fixable(c, db, f) && Plain(k)
    ensures var rio, m := db.rios[f.ref], FixMunicipio(c, f);
      var linked := if m.Some? && k == MunicipioName then Text(m.value.nome)
                    else if m.Some? && k == MunicipioId then Text(m.value.code)
                    else if k == DistritoSource && Moves(rio, m) then Null else At(rio.n, k);
      At(FixedNorm(c, db, f, apply), k) ==
        if f.clearPlace && (k in PLACE_KEYS || (k == DistritoSource && linked == FROM_PLACES)) then Null
        else if k == Lat && Coords(f) then Coord(f.lat.value)
        else if k == Lon && Coords(f) then Coord(f.lng.value)
        else if k == Name && f.name != "" then Text(f.name) else linked
  {
    var rio, m := db.rios[f.ref], FixMunicipio(c, f);
    var n1 := Relinked(rio.n, rio, m, if m.Some? then Parent(db, m.value, apply) else map[]);
    LinkedAt(c, db, f, apply, k);
    PlacedAt(n1, f, k);
    ClearedAt(Placed(n1, f), f, k);
    hide Relinked, Placed, Cleared, Parent;
  }

  lemma PlaceKeysArePlain(k: Field)
    requires k in PLACE_KEYS
    ensures Plain(k) && k !in [MunicipioName, MunicipioId, Lat, Lon, Name, DistritoSource]
  {
    match k
    case GooglePlaceId =>
    case PlaceIdCache =>
    case WeekdayText =>
    case Address =>
    case Phone =>
    case Website =>
    case PriceLevel =>
    case Signal =>
    case GoogleFetchedAt =>
    case _ => assert false;
  }

  lemma FixedPlaceless(c: Context, db: Db, f: FixEntry, apply: bool)
    requires Fixable(c, db, f)
    ensures Placeless(FixedNorm(c, db, f, apply)) <==> f.clearPlace || Placeless(db.rios[f.ref].n)
  {
    forall k | k in PLACE_KEYS
      ensures At(FixedNorm(c, db, f, apply), k) == if f.clearPlace then Null else At(db.rios[f.ref].n, k)
    {
      PlaceKeysArePlain(k);
      FixedNormAt(c, db, f, apply, k);
      hide FixedNorm, Plain;
    }
    hide FixedNorm;
  }

  lemma FixedNormReads(c: Context, db: Db, f: FixEntry, apply: bool)
    requires Fixable(c, db, f)
    ensures var rio, m := db.rios[f.ref], FixMunicipio(c, f);
      ReadingAt(if m.Some? then Some(m.value.code) else rio.municipio, FixedNorm(c, db, f, apply)) ==
        AfterFix(c, ReadingOf(rio), f)
  {
    MunicipioReads(c, db, f, apply);
    SpotReads(c, db, f, apply);
    PlaceReads(c, db, f, apply);
    FixedPlaceless(c, db, f, apply);
    hide FixedNorm, Placeless, Moved;
  }

  lemma MunicipioReads(c: Context, db: Db, f: FixEntry, apply: bool)
    requires Fixable(c, db, f)
    ensures var after, x := FixedNorm(c, db, f, apply), AfterFix(c, ReadingOf(db.rios[f.ref]), f);
      At(after, MunicipioName) == x.nome && At(after, MunicipioId) == x.code
  {
    FixedNormAt(c, db, f, apply, MunicipioName);
    FixedNormAt(c, db, f, apply, MunicipioId);
    hide FixedNorm, Placeless;
  }

  lemma SpotReads(c: Context, db: Db, f: FixEntry, apply: bool)
    requires Fixable(c, db, f)
    ensures var after, x := FixedNorm(c, db, f, apply), AfterFix(c, ReadingOf(db.rios[f.ref]), f);
      At(after, Lat) == x.lat && At(after, Lon) == x.lon && At(after, Name) == x.name
  {
    FixedNormAt(c, db, f, apply, Lat);
    FixedNormAt(c, db, f, apply, Lon);
    FixedNormAt(c, db, f, apply, Name);
    hide FixedNorm, Placeless;
  }

  lemma PlaceReads(c: Context, db: Db, f: FixEntry, apply: bool)
    requires Fixable(c, db, f)
    ensures var after, x := FixedNorm(c, db, f, apply), AfterFix(c, ReadingOf(db.rios[f.ref]), f);
      At(after, GooglePlaceId) == x.pid && At(after, DistritoSource) == x.source
  {
    FixedNormAt(c, db, f, apply, GooglePlaceId);
    FixedNormAt(c, db, f, apply, DistritoSource);
    hide FixedNorm, Placeless;
  }

  lemma SameReading(m: Option<Code>, a: Norm, b: Norm)
    requires forall k :: At(a, k) == At(b, k)
    ensures ReadingAt(m, a) == ReadingAt(m, b)
  {
  }

  /** The record as a fix leaves it, written or skipped, in either run. */
  lemma FixedReads(c: Context, db: Db, f: FixEntry, apply: bool, now: int)
    requires Fixable(c, db, f)
    ensures var rio, m := db.rios[f.ref], FixMunicipio(c, f);
      ReadingOf(Landed(rio, FixedNorm(c, db, f, apply), m, now)) == AfterFix(c, ReadingOf(rio), f)
  {
    var rio, after, m := db.rios[f.ref], FixedNorm(c, db, f, apply), FixMunicipio(c, f);
    FixedNormKeepsKeys(c, db, f, apply);
    LandedReads(rio, after, m, now);
    FixedNormReads(c, db, f, apply);
    SameReading(Landed(rio, after, m, now).municipio, Landed(rio, after, m, now).n, after);
    hide FixedNorm, Landed, AfterFix, ReadingAt;
  }

  /** Exactly when the record already reads as wanted, a fix has nothing to write. */
  lemma NothingToWriteIff(c: Context, db: Db, f: FixEntry, apply: bool, now: int)
    requires Fixable(c, db, f)
    ensures var rio := db.rios[f.ref];
      Edited(rio, FixedNorm(c, db, f, apply), FixMunicipio(c, f), now).None? <==>
        AfterFix(c, ReadingOf(rio), f) == ReadingOf(rio)
  {
    FixedReads(c, db, f, apply, now);
    if AfterFix(c, ReadingOf(db.rios[f.ref]), f) == ReadingOf(db.rios[f.ref]) {
      ReadAlreadyMeansUnchanged(c, db, f, apply);
    }
    hide FixedNorm, AfterFix, ReadingOf, Changes;
  }

  lemma ReadAlreadyMeansUnchanged(c: Context, db: Db, f: FixEntry, apply: bool)
    requires Fixable(c, db, f) && AfterFix(c, ReadingOf(db.rios[f.ref]), f) == ReadingOf(db.rios[f.ref])
    ensures !Changes(db.rios[f.ref].n, FixedNorm(c, db, f, apply)) && !Moves(db.rios[f.ref], FixMunicipio(c, f))
  {
    var rio, m := db.rios[f.ref], FixMunicipio(c, f);
    var n1 := Relinked(rio.n, rio, m, if m.Some? then Parent(db, m.value, apply) else map[]);
    var n2 := Placed(n1, f);
    assert !Moves(rio, m);
    assert forall k :: At(n1, k) == At(rio.n, k);
    assert forall k :: At(n2, k) == At(n1, k);
    ClearsNothing(n2, f);
    var n3 := Cleared(n2, f);
    assert forall k :: At(n3, k) == At(n2, k);
  }

  lemma ClearsNothing(n: Norm, f: FixEntry)
    requires f.clearPlace ==> Placeless(n) && At(n, DistritoSource) != FROM_PLACES
    ensures forall k :: At(Cleared(n, f), k) == At(n, k)
  {
    NullOutAt(n, PLACE_KEYS);
    hide NullOut;
  }

  // ---- One entry, in either run -------------------------------------------------------------

  /** A fix is counted unless it has nothing to do. */
  lemma FixJudged(c: Context, s: State, f: FixEntry, apply: bool)
    ensures FixStep(c, s, f, apply).counts ==
      if FixIdle(c, ReadingsOf(s.db), f) then s.counts.(skipped := s.counts.skipped + 1)
      else s.counts.(fix := s.counts.fix + 1)
  {
    if Fixable(c, s.db, f) {
      NothingToWriteIff(c, s.db, f, apply, c.now);
      FixLands(c, s, f, apply);
    } else {
      FixRefused(c, s, f, apply);
    }
    hide FixStep, FixedNorm, AfterFix, ReadingOf, Edited;
  }

  lemma FixRefused(c: Context, s: State, f: FixEntry, apply: bool)
    requires !Fixable(c, s.db, f)
    ensures FixStep(c, s, f, apply) == s.(counts := s.counts.(skipped := s.counts.skipped + 1))
  {
  }

  lemma OneMoreReading(db: Db, r: Ref, rio: Rio)
    ensures ReadingsOf(db.(rios := db.rios[r := rio])) == ReadingsOf(db)[r := ReadingOf(rio)]
  {
    hide ReadingOf;
  }

  lemma KeysOfReadings(db: Db)
    ensures ReadingsOf(db).Keys == db.rios.Keys && forall r | r in db.rios :: ReadingsOf(db)[r] == ReadingOf(db.rios[r])
  {
    hide ReadingOf;
  }

  lemma FixWrites(c: Context, s: State, f: FixEntry)
    requires Fixable(c, s.db, f)
    ensures var m, rio, s' := FixMunicipio(c, f), s.db.rios[f.ref], FixStep(c, s, f, true);
      && s'.db.mars == s.db.mars
      && s'.db.rios == (if Moves(rio, m) then WithDestino(c, s.db, m.value) else s.db).rios[
           f.ref := Landed(rio, FixedNorm(c, s.db, f, true), m, c.now)]
  {
    hide FixedNorm, Changes, Pid;
    if Edited(s.db.rios[f.ref], FixedNorm(c, s.db, f, true), FixMunicipio(c, f), c.now).None? {
      assert s.db.rios[f.ref := s.db.rios[f.ref]] == s.db.rios;
    }
  }

  /** What --apply's fix does to all the records is what it does to their readings. */
  lemma FixReads(c: Context, s: State, f: FixEntry)
    requires Intact(c, s.db)
    ensures ReadingsOf(FixStep(c, s, f, true).db) == FixReadings(c, ReadingsOf(s.db), f)
  {
    if Fixable(c, s.db, f) {
      var m, rio := FixMunicipio(c, f), s.db.rios[f.ref];
      var db := if Moves(rio, m) then WithDestino(c, s.db, m.value) else s.db;
      FixWrites(c, s, f);
      FixedReads(c, s.db, f, true, c.now);
      assert Moves(rio, m) <==> Moved(c, ReadingOf(rio), f);
      hide FixStep, FixedNorm, Landed, AfterFix, DestinoRef, ReadingOf, Moves, Moved, ReadingsOf;
      if m.Some? { OneMoreReading(s.db, DestinoRef(m.value), c.newDestino); }
      OneMoreReading(db, f.ref, Landed(rio, FixedNorm(c, s.db, f, true), m, c.now));
      KeysOfReadings(s.db);
    } else {
      FixRefused(c, s, f, true);
      hide FixStep, ReadingOf, AfterFix;
    }
  }

  lemma RenameIsLocal(c: Context, s: State, e: RenameEntry, apply: bool)
    ensures var s' := RenameStep(c, s, e, apply);
      && s'.planned == s.planned && s'.db.mars == s.db.mars && s'.db.rios.Keys == s.db.rios.Keys
      && (forall r | r in s.db.rios && r != e.ref :: s'.db.rios[r] == s.db.rios[r])
      && (!apply ==> s'.db == s.db)
      && (e.ref !in s.db.rios ==> s' == s.(counts := s.counts.(skipped := s.counts.skipped + 1)))
  {
    hide Changes;
  }

  lemma RenameChanges(n: Norm, to: string)
    ensures Changes(n, n[Name := Text(to)]) <==> At(n, Name) != Text(to)
  {
    if At(n, Name) != Text(to) {
      assert Name in n[Name := Text(to)];
    }
  }

  lemma RenameJudged(c: Context, s: State, e: RenameEntry, apply: bool)
    ensures RenameStep(c, s, e, apply).counts ==
      if RenameIdle(ReadingsOf(s.db), e) then s.counts.(skipped := s.counts.skipped + 1)
      else s.counts.(rename := s.counts.rename + 1)
  {
    if e.ref in s.db.rios { RenameChanges(s.db.rios[e.ref].n, e.to); }
    hide Changes, Placeless;
  }

  lemma RenameReads(c: Context, s: State, e: RenameEntry)
    ensures ReadingsOf(RenameStep(c, s, e, true).db) == RenameReadings(ReadingsOf(s.db), e)
  {
    RenameIsLocal(c, s, e, true);
    if e.ref in s.db.rios {
      RenamedReading(c, s, e);
      hide RenameStep, ReadingOf;
    }
  }

  lemma RenamedReading(c: Context, s: State, e: RenameEntry)
    requires e.ref in s.db.rios
    ensures ReadingOf(RenameStep(c, s, e, true).db.rios[e.ref]) == ReadingOf(s.db.rios[e.ref]).(name := Text(e.to))
  {
    var rio, rio' := s.db.rios[e.ref], RenameStep(c, s, e, true).db.rios[e.ref];
    RenamedFields(c, s, e);
    SameReading(rio.municipio, rio'.n, rio.n[Name := Text(e.to)]);
    NamedReading(rio.municipio, rio.n, e.to);
    hide RenameStep, ReadingAt;
  }

  lemma RenamedFields(c: Context, s: State, e: RenameEntry)
    requires e.ref in s.db.rios
    ensures var rio, s' := s.db.rios[e.ref], RenameStep(c, s, e, true);
      && e.ref in s'.db.rios && s'.db.rios[e.ref].municipio == rio.municipio
      && forall k :: At(s'.db.rios[e.ref].n, k) == At(rio.n[Name := Text(e.to)], k)
  {
    RenameChanges(s.db.rios[e.ref].n, e.to);
    hide Changes;
  }

  lemma NamedReading(m: Option<Code>, n: Norm, to: string)
    ensures ReadingAt(m, n[Name := Text(to)]) == ReadingAt(m, n).(name := Text(to))
  {
    forall k | k in PLACE_KEYS ensures At(n[Name := Text(to)], k) == At(n, k) { PlaceKeysArePlain(k); }
    hide Plain;
  }

  // ---- The whole run --------------------------------------------------------------------------

  /** After the merges and the first n fixes. */
  function Fixed(c: Context, db: Db, m: Manifest, n: nat, apply: bool): State
    requires Intact(c, db) && n <= |m.fixes|
  {
    AllFixes(c, AllMerges(c, State(db, map[], NOTHING), m.attractions, apply), m.fixes[..n], apply)
  }

  /** After the first n renames too. */
  function Renamed(c: Context, db: Db, m: Manifest, n: nat, apply: bool): State
    requires Intact(c, db) && n <= |m.renames|
  {
    AllRenames(c, Fixed(c, db, m, |m.fixes|, apply), m.renames[..n], apply)
  }

  /** What the i-th fix finds, and the i-th rename. */
  function LeftToFix(c: Context, db: Db, m: Manifest, i: nat): Readings
    requires i <= |m.fixes|
  {
    AllFixReadings(c, ReadingsOf(db), m.fixes[..i])
  }

  function LeftToRename(c: Context, db: Db, m: Manifest, i: nat): Readings
    requires i <= |m.renames|
  {
    AllRenameReadings(LeftToFix(c, db, m, |m.fixes|), m.renames[..i])
  }

  /** The run counts the entry, rather than skip it. */
  predicate FixCounted(c: Context, db: Db, m: Manifest, i: nat, apply: bool)
    requires Intact(c, db) && i < |m.fixes|
  {
    Fixed(c, db, m, i + 1, apply).counts.fix > Fixed(c, db, m, i, apply).counts.fix
  }

  predicate RenameCounted(c: Context, db: Db, m: Manifest, i: nat, apply: bool)
    requires Intact(c, db) && i < |m.renames|
  {
    Renamed(c, db, m, i + 1, apply).counts.rename > Renamed(c, db, m, i, apply).counts.rename
  }

  lemma FixedFurther(c: Context, db: Db, m: Manifest, i: nat, apply: bool)
    requires Intact(c, db) && i < |m.fixes|
    ensures Fixed(c, db, m, i + 1, apply) == FixStep(c, Fixed(c, db, m, i, apply), m.fixes[i], apply)
    ensures LeftToFix(c, db, m, i + 1) == FixReadings(c, LeftToFix(c, db, m, i), m.fixes[i])
  {
    assert m.fixes[..i + 1][..i] == m.fixes[..i];
    hide FixStep, FixReadings;
  }

  lemma RenamedFurther(c: Context, db: Db, m: Manifest, i: nat, apply: bool)
    requires Intact(c, db) && i < |m.renames|
    ensures Renamed(c, db, m, i + 1, apply) == RenameStep(c, Renamed(c, db, m, i, apply), m.renames[i], apply)
    ensures LeftToRename(c, db, m, i + 1) == RenameReadings(LeftToRename(c, db, m, i), m.renames[i])
  {
    assert m.renames[..i + 1][..i] == m.renames[..i];
    hide RenameStep, RenameReadings, Fixed, LeftToFix;
  }

  lemma FixKeepsIntact(c: Context, s: State, f: FixEntry, apply: bool)
    requires Intact(c, s.db)
    ensures Intact(c, FixStep(c, s, f, apply).db)
  {
    FixIsLocal(c, s, f, apply);
    hide FixStep;
  }

  lemma MergesKeepReadings(c: Context, db: Db, es: seq<MergeEntry>)
    requires Intact(c, db)
    ensures ReadingsOf(AllMerges(c, State(db, map[], NOTHING), es, true).db) == ReadingsOf(db)
  {
    AppliedMergesOnlyDrop(c, db, es);
    hide AllMerges, Placeless;
  }

  /** --apply finds the records as the fold says. */
  lemma {:induction false} FixFindsTheFold(c: Context, db: Db, m: Manifest, n: nat)
    requires Intact(c, db) && n <= |m.fixes|
    ensures var s := Fixed(c, db, m, n, true);
      Intact(c, s.db) && ReadingsOf(s.db) == LeftToFix(c, db, m, n)
  {
    if n == 0 {
      MergesKeepReadings(c, db, m.attractions);
      hide ReadingsOf, AllMerges;
    } else {
      FixFindsTheFold(c, db, m, n - 1);
      FixedFurther(c, db, m, n - 1, true);
      FixReads(c, Fixed(c, db, m, n - 1, true), m.fixes[n - 1]);
      FixKeepsIntact(c, Fixed(c, db, m, n - 1, true), m.fixes[n - 1], true);
      hide Fixed, LeftToFix, FixStep, FixReadings, ReadingsOf;
    }
  }

  lemma {:induction false} RenameFindsTheFold(c: Context, db: Db, m: Manifest, n: nat)
    requires Intact(c, db) && n <= |m.renames|
    ensures ReadingsOf(Renamed(c, db, m, n, true).db) == LeftToRename(c, db, m, n)
  {
    if n == 0 {
      FixFindsTheFold(c, db, m, |m.fixes|);
      hide Fixed, LeftToFix, ReadingsOf;
    } else {
      RenameFindsTheFold(c, db, m, n - 1);
      RenamedFurther(c, db, m, n - 1, true);
      RenameReads(c, Renamed(c, db, m, n - 1, true), m.renames[n - 1]);
      hide Renamed, LeftToRename, RenameStep, RenameReadings, ReadingsOf;
    }
  }

  lemma {:induction false} DryWritesNothing(c: Context, s: State, fs: seq<FixEntry>, rs: seq<RenameEntry>)
    ensures AllRenames(c, AllFixes(c, s, fs, false), rs, false).db == s.db
    decreases |rs|, |fs|
  {
    if rs != [] {
      DryWritesNothing(c, s, fs, rs[..|rs| - 1]);
      RenameIsLocal(c, AllRenames(c, AllFixes(c, s, fs, false), rs[..|rs| - 1], false), rs[|rs| - 1], false);
      hide RenameStep, FixStep;
    } else if fs != [] {
      DryWritesNothing(c, s, fs[..|fs| - 1], rs);
      FixIsLocal(c, AllFixes(c, s, fs[..|fs| - 1], false), fs[|fs| - 1], false);
      hide FixStep;
    }
  }

  lemma DryKeepsTheDatabase(c: Context, db: Db, m: Manifest, i: nat, j: nat)
    requires Intact(c, db) && i <= |m.fixes| && j <= |m.renames|
    ensures Fixed(c, db, m, i, false).db == Renamed(c, db, m, j, false).db == db
  {
    DryMergesPlanTheDrops(c, db, m.attractions);
    var s := AllMerges(c, State(db, map[], NOTHING), m.attractions, false);
    DryWritesNothing(c, s, m.fixes[..i], []);
    DryWritesNothing(c, s, m.fixes[..|m.fixes|], m.renames[..j]);
    hide AllMerges, AllFixes;
  }

  // ---- Dry against apply, entry by entry ------------------------------------------------------

  /** The record reads as wanted when the entry's turn comes exactly when it does before the run. */
  predicate FixAlike(c: Context, db: Db, m: Manifest, i: nat)
    requires i < |m.fixes|
  {
    FixIdle(c, LeftToFix(c, db, m, i), m.fixes[i]) <==> FixIdle(c, ReadingsOf(db), m.fixes[i])
  }

  predicate NameAlike(c: Context, db: Db, m: Manifest, i: nat)
    requires i < |m.renames|
  {
    RenameIdle(LeftToRename(c, db, m, i), m.renames[i]) <==> RenameIdle(ReadingsOf(db), m.renames[i])
  }

  /** The two runs judge a fix alike exactly when what the earlier fixes leave of the record, its
      município, coordinates, name and place, is as good or as bad as what was there. */
  lemma FixJudgedAlikeIff(c: Context, db: Db, m: Manifest, i: nat)
    requires Intact(c, db) && i < |m.fixes|
    ensures FixCounted(c, db, m, i, false) == FixCounted(c, db, m, i, true) <==> FixAlike(c, db, m, i)
  {
    FixTurn(c, db, m, i, false);
    FixTurn(c, db, m, i, true);
    hide Fixed, LeftToFix, ReadingsOf, FixIdle;
  }

  lemma FixTurn(c: Context, db: Db, m: Manifest, i: nat, apply: bool)
    requires Intact(c, db) && i < |m.fixes|
    ensures var idle := FixIdle(c, if apply then LeftToFix(c, db, m, i) else ReadingsOf(db), m.fixes[i]);
      && (FixCounted(c, db, m, i, apply) <==> !idle)
      && var k := Fixed(c, db, m, i, apply).counts;
         Fixed(c, db, m, i + 1, apply).counts == if idle then k.(skipped := k.skipped + 1) else k.(fix := k.fix + 1)
  {
    FixedFurther(c, db, m, i, apply);
    FixJudged(c, Fixed(c, db, m, i, apply), m.fixes[i], apply);
    if apply { FixFindsTheFold(c, db, m, i); } else { DryKeepsTheDatabase(c, db, m, i, 0); }
    hide Fixed, LeftToFix, ReadingsOf, FixIdle, FixStep;
  }

  /** The two runs judge a rename alike exactly when the name the earlier entries leave equals the
      new one exactly when the name before the run does. */
  lemma RenameJudgedAlikeIff(c: Context, db: Db, m: Manifest, i: nat)
    requires Intact(c, db) && i < |m.renames|
    ensures RenameCounted(c, db, m, i, false) == RenameCounted(c, db, m, i, true) <==> NameAlike(c, db, m, i)
  {
    RenameTurn(c, db, m, i, false);
    RenameTurn(c, db, m, i, true);
    hide Renamed, LeftToRename, ReadingsOf, RenameIdle;
  }

  lemma RenameTurn(c: Context, db: Db, m: Manifest, i: nat, apply: bool)
    requires Intact(c, db) && i < |m.renames|
    ensures var idle := RenameIdle(if apply then LeftToRename(c, db, m, i) else ReadingsOf(db), m.renames[i]);
      && (RenameCounted(c, db, m, i, apply) <==> !idle)
      && var k := Renamed(c, db, m, i, apply).counts;
         Renamed(c, db, m, i + 1, apply).counts ==
           if idle then k.(skipped := k.skipped + 1) else k.(rename := k.rename + 1)
  {
    RenamedFurther(c, db, m, i, apply);
    RenameJudged(c, Renamed(c, db, m, i, apply), m.renames[i], apply);
    if apply { RenameFindsTheFold(c, db, m, i); } else { DryKeepsTheDatabase(c, db, m, 0, i); }
    hide Renamed, LeftToRename, ReadingsOf, RenameIdle, RenameStep;
  }

  /** The name a record is left with: that of the last rename of it, else of the last fix that
      names it, else its own. */
  function NameLeft(c: Context, fs: seq<FixEntry>, rs: seq<RenameEntry>, r: Ref, own: Val): Val {
    if rs != [] then
      if rs[|rs| - 1].ref == r then Text(rs[|rs| - 1].to) else NameLeft(c, fs, rs[..|rs| - 1], r, own)
    else if fs != [] then
      var f := fs[|fs| - 1];
      if f.ref == r && f.name != "" && Accepted(c, f) then Text(f.name) else NameLeft(c, fs[..|fs| - 1], [], r, own)
    else own
  }

  lemma {:induction false} FoundAsLeft(c: Context, m: Readings, fs: seq<FixEntry>, rs: seq<RenameEntry>, r: Ref)
    requires r in m
    ensures var left := AllRenameReadings(AllFixReadings(c, m, fs), rs);
      r in left && left[r].name == NameLeft(c, fs, rs, r, m[r].name)
    decreases |rs|, |fs|
  {
    if rs != [] {
      FoundAsLeft(c, m, fs, rs[..|rs| - 1], r);
    } else if fs != [] {
      FoundAsLeft(c, m, fs[..|fs| - 1], [], r);
      hide DestinoRef;
    }
  }
}
