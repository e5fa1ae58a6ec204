/**
 A manifest run over the Rio and the Mar: merges, fixes, renames, then the same-place twins. The
 dry run writes nothing and overlays what it planned; --apply writes as it goes.
 */
module TerritorialFixes {
  import opened Common

  /** A source_ref or canonical key; a record without one has a key no manifest can name. */
  type Ref = string
  type Code = string

  datatype Val = Null | Text(s: string) | Coord(v: int)

  /** The keys of the JSON column `normalized` that the script names, and the others. */
  datatype Field =
    | Name | Lat | Lon | MunicipioName | MunicipioId | ParentRioId | ParentSourceRef | ParentMarId
    | GooglePlaceId | PlaceIdCache | WeekdayText | Address | Phone | Website | PriceLevel | Signal | GoogleFetchedAt
    | DistritoName | DistritoCode | DistritoMunicipioIbge | SubdistritoName | SubdistritoCode | DistritoSource
    | Other(key: string)

  /** An absent key reads as null. */
  type Norm = map<Field, Val>

  datatype Rio = Rio(
    attraction: bool, routing: string, reason: string, municipio: Option<Code>, uf: string, n: Norm, processedAt: int)

  datatype Mar = Mar(rio: Ref, merged: seq<Ref>)

  /** Rios by canonical key, active Mars by source_ref. */
  datatype Db = Db(rios: map<Ref, Rio>, mars: map<Ref, Mar>)

  datatype Municipio = Municipio(code: Code, nome: string, uf: string)

  /** "" and None are a key the manifest leaves out. */
  datatype MergeEntry = MergeEntry(drop: Ref, keep: Ref)
  datatype FixEntry = FixEntry(
    ref: Ref, municipio: Code, lat: Option<int>, lng: Option<int>, name: string, clearPlace: bool)
  datatype RenameEntry = RenameEntry(ref: Ref, to: string)
  datatype Manifest = Manifest(attractions: seq<MergeEntry>, fixes: seq<FixEntry>, renames: seq<RenameEntry>)

  /** Where a record stands once the run lands; None is out of Mar. */
  datatype Place = Place(municipio: Option<Code>, pid: Option<string>)
  type Planned = map<Ref, Option<Place>>

  datatype Counts = Counts(merge: nat, fix: nat, rename: nat, samePlace: nat, skipped: nat)
  const NOTHING: Counts := Counts(0, 0, 0, 0, 0)

  /** What the run reads besides the database. */
  datatype Context = Context(municipios: map<Code, Municipio>, now: int, newDestino: Rio)

  const PLACE_KEYS: seq<Field> :=
    [GooglePlaceId, PlaceIdCache, WeekdayText, Address, Phone, Website, PriceLevel, Signal, GoogleFetchedAt]
  const DISTRITO_KEYS: seq<Field> :=
    [DistritoName, DistritoCode, DistritoMunicipioIbge, SubdistritoName, SubdistritoCode, DistritoSource]

  /** Every Mar row has its Rio, municípios are filed by their code, destinos are no attractions. */
  predicate Intact(c: Context, db: Db) {
    && (forall s | s in db.mars :: db.mars[s].rio in db.rios)
    && (forall k | k in c.municipios :: c.municipios[k].code == k)
    && !c.newDestino.attraction
  }

  function At(n: Norm, k: Field): Val {
    if k in n then n[k] else Null
  }

  function NullOut(n: Norm, keys: seq<Field>): Norm {
    map k | k in n :: if k in keys then Null else n[k]
  }

  predicate Prefixed(s: string, p: string) {
    |s| >= |p| && s[..|p|] == p
  }

  // ---- One entry at a time ----------------------------------------------------------------

  /** The database, the overlay and the counts as an action leaves them. */
  datatype State = State(db: Db, planned: Planned, counts: Counts)

  predicate Listed(e: MergeEntry) {
    Prefixed(e.drop, "tripadvisor:") && Prefixed(e.keep, "tripadvisor:")
  }

  predicate Merges(db: Db, e: MergeEntry)
    requires forall s | s in db.mars :: db.mars[s].rio in db.rios
  {
    && e.drop in db.rios && e.keep in db.mars && e.drop != db.mars[e.keep].rio
    && db.rios[e.drop].routing != "descarte" && db.rios[db.mars[e.keep].rio].routing == "mar"
  }

  function Discard(r: Rio, reason: string): Rio {
    r.(routing := "descarte", reason := reason)
  }

  function MergeStep(s: State, e: MergeEntry, apply: bool): State
    requires forall m | m in s.db.mars :: s.db.mars[m].rio in s.db.rios
  {
    if !Listed(e) then s
    else if !Merges(s.db, e) then s.(counts := s.counts.(skipped := s.counts.skipped + 1))
    else
      var mar := s.db.mars[e.keep];
      State(if !apply then s.db else Db(
              s.db.rios[e.drop := s.db.rios[e.drop].(routing := "descarte")],
              s.db.mars[e.keep := mar.(merged := if e.drop in mar.merged then mar.merged else mar.merged + [e.drop])]),
            s.planned[e.drop := None],
            s.counts.(merge := s.counts.merge + 1))
  }

  function DestinoRef(m: Municipio): Ref {
    "ibge:" + m.uf + ":" + m.code
  }

  /** The new município's destino; rows are named by their refs. */
  function Parent(db: Db, m: Municipio, apply: bool): Norm {
    map[ParentRioId := if apply || DestinoRef(m) in db.rios then Text(DestinoRef(m)) else Null,
        ParentSourceRef := Text(DestinoRef(m)),
        ParentMarId := if DestinoRef(m) in db.mars then Text(DestinoRef(m)) else Null]
  }

  predicate Coords(f: FixEntry) {
    f.lat.Some? && f.lng.Some?
  }

  /** A fix that is not refused for what it says. */
  predicate Accepted(c: Context, f: FixEntry) {
    (f.clearPlace ==> Coords(f)) && (f.municipio != "" ==> f.municipio in c.municipios)
  }

  /** Nor for the record it names. */
  predicate Fixable(c: Context, db: Db, f: FixEntry) {
    f.ref in db.rios && Accepted(c, f)
  }

  function FixMunicipio(c: Context, f: FixEntry): Option<Municipio>
    requires f.municipio != "" ==> f.municipio in c.municipios
  {
    if f.municipio != "" then Some(c.municipios[f.municipio]) else None
  }

  predicate Moves(rio: Rio, m: Option<Municipio>) {
    m.Some? && rio.municipio != Some(m.value.code)
  }

  function Relinked(n: Norm, rio: Rio, m: Option<Municipio>, parent: Norm): Norm {
    if m.None? then n
    else (if Moves(rio, m) then NullOut(n, DISTRITO_KEYS) + parent else n)
           [MunicipioName := Text(m.value.nome)][MunicipioId := Text(m.value.code)]
  }

  function Placed(n: Norm, f: FixEntry): Norm {
    var n1 := if Coords(f) then n[Lat := Coord(f.lat.value)][Lon := Coord(f.lng.value)] else n;
    if f.name != "" then n1[Name := Text(f.name)] else n1
  }

  function Cleared(n: Norm, f: FixEntry): Norm {
    if !f.clearPlace then n
    else
      var n1 := NullOut(n, PLACE_KEYS);
      if At(n1, DistritoSource) == Text("places_admin_area_level_3") then NullOut(n1, DISTRITO_KEYS) else n1
  }

  function FixedNorm(c: Context, db: Db, f: FixEntry, apply: bool): Norm
    requires Fixable(c, db, f)
  {
    var rio, m := db.rios[f.ref], FixMunicipio(c, f);
    Cleared(Placed(Relinked(rio.n, rio, m, if m.Some? then Parent(db, m.value, apply) else map[]), f), f)
  }

  predicate Changes(before: Norm, after: Norm) {
    exists k | k in after :: At(before, k) != after[k]
  }

  /** The record once edited; None: already applied. */
  function Edited(rio: Rio, after: Norm, m: Option<Municipio>, now: int): Option<Rio> {
    if !Changes(rio.n, after) && !Moves(rio, m) then None
    else
      var r := rio.(n := after, processedAt := now);
      Some(if Moves(rio, m) then r.(municipio := Some(m.value.code), uf := m.value.uf) else r)
  }

  function Pid(n: Norm): Option<string> {
    match At(n, GooglePlaceId)
    case Text(s) => Some(s)
    case _ => None
  }

  /** --apply makes the destino of a município it moves a record to. */
  function WithDestino(c: Context, db: Db, m: Municipio): Db {
    if DestinoRef(m) in db.rios then db else db.(rios := db.rios[DestinoRef(m) := c.newDestino])
  }

  function FixStep(c: Context, s: State, f: FixEntry, apply: bool): State {
    if !Fixable(c, s.db, f) then s.(counts := s.counts.(skipped := s.counts.skipped + 1))
    else
      var rio, m, after := s.db.rios[f.ref], FixMunicipio(c, f), FixedNorm(c, s.db, f, apply);
      var planned := s.planned[f.ref := Some(Place(if m.Some? then Some(m.value.code) else rio.municipio, Pid(after)))];
      var edited := Edited(rio, after, m, c.now);
      if edited.None? then State(s.db, planned, s.counts.(skipped := s.counts.skipped + 1))
      else
        var db := if apply && Moves(rio, m) then WithDestino(c, s.db, m.value) else s.db;
        State(if apply then db.(rios := db.rios[f.ref := edited.value]) else s.db,
              planned, s.counts.(fix := s.counts.fix + 1))
  }

  function RenameStep(c: Context, s: State, r: RenameEntry, apply: bool): State {
    if r.ref !in s.db.rios then s.(counts := s.counts.(skipped := s.counts.skipped + 1))
    else
      var rio := s.db.rios[r.ref];
      var edited := Edited(rio, rio.n[Name := Text(r.to)], None, c.now);
      if edited.None? then s.(counts := s.counts.(skipped := s.counts.skipped + 1))
      else s.(db := if apply then s.db.(rios := s.db.rios[r.ref := edited.value]) else s.db,
              counts := s.counts.(rename := s.counts.rename + 1))
  }

  // ---- Same place, same município -----------------------------------------------------------

  predicate HasMar(db: Db, r: Ref) {
    exists s | s in db.mars :: db.mars[s].rio == r
  }

  function Standing(db: Db, planned: Planned, r: Ref): Option<Place>
    requires r in db.rios
  {
    if r in planned then planned[r] else Some(Place(db.rios[r].municipio, Pid(db.rios[r].n)))
  }

  predicate Known(p: Place) {
    p.municipio.Some? && p.municipio.value != "" && p.pid.Some? && p.pid.value != ""
  }

  function InMar(db: Db, planned: Planned): set<Option<Place>> {
    set r | r in db.rios && HasMar(db, r) && db.rios[r].routing == "mar" && db.rios[r].attraction ::
      Standing(db, planned, r)
  }

  function Twins(db: Db, planned: Planned): set<Ref> {
    set r | r in db.rios && !HasMar(db, r) && db.rios[r].routing == "mar" && db.rios[r].attraction
            && Pid(db.rios[r].n).Some?
            && Standing(db, planned, r).Some? && Known(Standing(db, planned, r).value)
            && Standing(db, planned, r) in InMar(db, planned)
  }

  function Discarded(db: Db, twins: set<Ref>): Db {
    db.(rios := map r | r in db.rios :: if r in twins then Discard(db.rios[r], "dedup_same_place_id") else db.rios[r])
  }

  function TwinStep(s: State, apply: bool): State {
    var twins := Twins(s.db, s.planned);
    State(if apply then Discarded(s.db, twins) else s.db, s.planned,
          s.counts.(samePlace := s.counts.samePlace + |twins|))
  }

  // ---- The run ------------------------------------------------------------------------------

  lemma MergeKeepsIntact(c: Context, s: State, e: MergeEntry, apply: bool)
    requires Intact(c, s.db)
    ensures Intact(c, MergeStep(s, e, apply).db)
  {
  }

  function AllMerges(c: Context, s: State, es: seq<MergeEntry>, apply: bool): (r: State)
    requires Intact(c, s.db)
    ensures Intact(c, r.db)
  {
    if es == [] then s
    else
      var before := AllMerges(c, s, es[..|es| - 1], apply);
      MergeKeepsIntact(c, before, es[|es| - 1], apply);
      MergeStep(before, es[|es| - 1], apply)
  }

  function AllFixes(c: Context, s: State, fs: seq<FixEntry>, apply: bool): State {
    if fs == [] then s else FixStep(c, AllFixes(c, s, fs[..|fs| - 1], apply), fs[|fs| - 1], apply)
  }

  function AllRenames(c: Context, s: State, rs: seq<RenameEntry>, apply: bool): State {
    if rs == [] then s else RenameStep(c, AllRenames(c, s, rs[..|rs| - 1], apply), rs[|rs| - 1], apply)
  }

  /** Before the twins are looked for. */
  function Edits(c: Context, db: Db, m: Manifest, apply: bool): State
    requires Intact(c, db)
  {
    var merged := AllMerges(c, State(db, map[], NOTHING), m.attractions, apply);
    AllRenames(c, AllFixes(c, merged, m.fixes, apply), m.renames, apply)
  }

  function RunOf(c: Context, db: Db, m: Manifest, apply: bool): State
    requires Intact(c, db)
  {
    TwinStep(Edits(c, db, m, apply), apply)
  }

  // ---- The script itself ----------------------------------------------------------------------

  /** _null: the keys that hold something now hold null. */
  method SetNull(n: Norm, keys: seq<Field>) returns (after: Norm)
    ensures after == NullOut(n, keys)
  {
    after := n;
    for i := 0 to |keys|
      invariant after == NullOut(n, keys[..i])
    {
      assert keys[..i + 1] == keys[..i] + [keys[i]];
      if keys[i] in after && after[keys[i]] != Null {
        after := after[keys[i] := Null];
      }
    }
    assert keys[..|keys|] == keys;
  }

  class Session {
    var db: Db
    var planned: Planned
    var counts: Counts

    constructor (db: Db)
      ensures this.db == db && planned == map[] && counts == NOTHING
    {
      this.db, planned, counts := db, map[], NOTHING;
    }

    function View(): State
      reads this
    {
      State(db, planned, counts)
    }

    method Merge(e: MergeEntry, apply: bool)
      requires forall s | s in db.mars :: db.mars[s].rio in db.rios
      modifies this
      ensures View() == MergeStep(old(View()), e, apply)
    {
      if !Listed(e) { return; }
      if e.drop !in db.rios || e.keep !in db.mars || e.drop == db.mars[e.keep].rio
         || db.rios[e.drop].routing == "descarte" || db.rios[db.mars[e.keep].rio].routing != "mar" {
        counts := counts.(skipped := counts.skipped + 1);
        return;
      }
      planned := planned[e.drop := None];
      if apply {
        var mar := db.mars[e.keep];
        var merged := mar.merged;
        if e.drop !in merged {
          merged := merged + [e.drop];
        }
        db := db.(mars := db.mars[e.keep := mar.(merged := merged)]);
        db := db.(rios := db.rios[e.drop := db.rios[e.drop].(routing := "descarte")]);
      }
      counts := counts.(merge := counts.merge + 1);
    }

    /** _edit: writes what changed and marks the record for the outbox, or skips. */
    method Edit(c: Context, ref: Ref, after: Norm, m: Option<Municipio>, apply: bool) returns (edited: bool)
      requires ref in db.rios
      modifies this`db
      ensures edited <==> Edited(old(db).rios[ref], after, m, c.now).Some?
      ensures db == if edited && apply
        then old(db).(rios := old(db).rios[ref := Edited(old(db).rios[ref], after, m, c.now).value]) else old(db)
    {
      var rio := db.rios[ref];
      var changed := set k | k in after && At(rio.n, k) != after[k];
      var moved := m.Some? && rio.municipio != Some(m.value.code);
      if changed == {} && !moved {
        assert forall k | k in after :: k !in changed;
        return false;
      }
      assert changed != {} ==> Changes(rio.n, after) by {
        if k :| k in changed { assert At(rio.n, k) != after[k]; }
      }
      if apply {
        rio := rio.(n := after);
        if moved {
          rio := rio.(municipio := Some(m.value.code), uf := m.value.uf);
        }
        rio := rio.(processedAt := c.now);
        db := db.(rios := db.rios[ref := rio]);
      }
      return true;
    }

    /** The record as the fix wants it, and the destino --apply makes for its município. */
    method After(c: Context, f: FixEntry, apply: bool) returns (after: Norm, municipio: Option<Municipio>)
      requires Fixable(c, db, f)
      modifies this`db
      ensures municipio == FixMunicipio(c, f) && after == FixedNorm(c, old(db), f, apply)
      ensures db == if apply && Moves(old(db).rios[f.ref], municipio)
        then WithDestino(c, old(db), municipio.value) else old(db)
    {
      var rio := db.rios[f.ref];
      after, municipio := rio.n, None;
      if f.municipio != "" {
        municipio := Some(c.municipios[f.municipio]);
        if rio.municipio != Some(municipio.value.code) {
          after := SetNull(after, DISTRITO_KEYS);
          var parent := Parent(db, municipio.value, apply);
          if apply {
            db := WithDestino(c, db, municipio.value);
          }
          after := after + parent;
        }
        after := after[MunicipioName := Text(municipio.value.nome)][MunicipioId := Text(municipio.value.code)];
      }
      if Coords(f) {
        after := after[Lat := Coord(f.lat.value)][Lon := Coord(f.lng.value)];
      }
      if f.name != "" {
        after := after[Name := Text(f.name)];
      }
      if f.clearPlace {
        after := SetNull(after, PLACE_KEYS);
        if At(after, DistritoSource) == Text("places_admin_area_level_3") {
          after := SetNull(after, DISTRITO_KEYS);
        }
      }
    }

    method Fix(c: Context, f: FixEntry, apply: bool)
      modifies this
      ensures View() == FixStep(c, old(View()), f, apply)
    {
      if f.ref !in db.rios || (f.clearPlace && !Coords(f)) || (f.municipio != "" && f.municipio !in c.municipios) {
        counts := counts.(skipped := counts.skipped + 1);
        return;
      }
      hide FixedNorm, Changes, Pid, Parent;
      var rio := db.rios[f.ref];
      var after, municipio := After(c, f, apply);
      assert db.rios[f.ref] == rio;
      var place := Place(if municipio.Some? then Some(municipio.value.code) else rio.municipio, Pid(after));
      planned := planned[f.ref := Some(place)];
      var edited := Edit(c, f.ref, after, municipio, apply);
      counts := if edited then counts.(fix := counts.fix + 1) else counts.(skipped := counts.skipped + 1);
    }

    method Rename(c: Context, r: RenameEntry, apply: bool)
      modifies this
      ensures View() == RenameStep(c, old(View()), r, apply)
    {
      var edited := false;
      if r.ref in db.rios {
        edited := Edit(c, r.ref, db.rios[r.ref].n[Name := Text(r.to)], None, apply);
      }
      counts := if edited then counts.(rename := counts.rename + 1) else counts.(skipped := counts.skipped + 1);
    }

    method DiscardAll(twins: set<Ref>)
      requires twins <= db.rios.Keys
      modifies this`db
      ensures db == Discarded(old(db), twins)
    {
      var todo := twins;
      while todo != {}
        invariant todo <= twins && db.mars == old(db).mars && db.rios.Keys == old(db).rios.Keys
        invariant forall r | r in db.rios ::
          db.rios[r] ==
            if r in twins && r !in todo then Discard(old(db).rios[r], "dedup_same_place_id") else old(db).rios[r]
      {
        var r :| r in todo;
        db := db.(rios := db.rios[r := Discard(db.rios[r], "dedup_same_place_id")]);
        todo := todo - {r};
      }
      assert db.rios == Discarded(old(db), twins).rios;
    }

    /** The two queries overlaid with `planned`, then the writes. */
    method SamePlaceId(apply: bool)
      modifies this
      ensures View() == TwinStep(old(View()), apply)
    {
      var twins := Twins(db, planned);
      if apply {
        DiscardAll(twins);
      }
      counts := counts.(samePlace := counts.samePlace + |twins|);
    }

    /** The whole manifest, in its order. */
    method Run(c: Context, m: Manifest, apply: bool)
      requires Intact(c, db) && planned == map[] && counts == NOTHING
      modifies this
      ensures View() == RunOf(c, old(db), m, apply)
    {
      ghost var s0 := View();
      hide MergeStep, FixStep, RenameStep, TwinStep;
      for i := 0 to |m.attractions|
        invariant Intact(c, db) && View() == AllMerges(c, s0, m.attractions[..i], apply)
      {
        assert m.attractions[..i + 1][..i] == m.attractions[..i];
        MergeKeepsIntact(c, View(), m.attractions[i], apply);
        Merge(m.attractions[i], apply);
      }
      assert m.attractions[..|m.attractions|] == m.attractions;
      ghost var s1 := View();
      for i := 0 to |m.fixes|
        invariant View() == AllFixes(c, s1, m.fixes[..i], apply)
      {
        assert m.fixes[..i + 1][..i] == m.fixes[..i];
        Fix(c, m.fixes[i], apply);
      }
      assert m.fixes[..|m.fixes|] == m.fixes;
      ghost var s2 := View();
      for i := 0 to |m.renames|
        invariant View() == AllRenames(c, s2, m.renames[..i], apply)
      {
        assert m.renames[..i + 1][..i] == m.renames[..i];
        Rename(c, m.renames[i], apply);
      }
      assert m.renames[..|m.renames|] == m.renames;
      SamePlaceId(apply);
    }
  }

  // ---- Merges: dry against apply ------------------------------------------------------------

  /** Two entries that both look mergeable beforehand, the later one needing a record the earlier
      one drops. */
  predicate Clashes(db: Db, e: MergeEntry, later: MergeEntry)
    requires forall s | s in db.mars :: db.mars[s].rio in db.rios
  {
    && Listed(e) && Listed(later) && Merges(db, e) && Merges(db, later)
    && (e.drop == later.drop || e.drop == db.mars[later.keep].rio)
  }

  predicate ClashFree(db: Db, es: seq<MergeEntry>)
    requires forall s | s in db.mars :: db.mars[s].rio in db.rios
  {
    forall i, j | 0 <= i < j < |es| :: !Clashes(db, es[i], es[j])
  }

  /** The same Mars, up to the refs merged into them. */
  ghost predicate SameMars(a: Db, b: Db) {
    a.mars.Keys == b.mars.Keys && forall s | s in a.mars :: a.mars[s].rio == b.mars[s].rio
  }

  /** Exactly the planned records were dropped, and nothing else changed. */
  ghost predicate OnlyDropped(db: Db, s: State) {
    && SameMars(db, s.db) && s.db.rios.Keys == db.rios.Keys && s.planned.Keys <= db.rios.Keys
    && (forall r | r in s.planned :: s.planned[r].None?)
    && (forall r | r in db.rios ::
          s.db.rios[r] == if r in s.planned then db.rios[r].(routing := "descarte") else db.rios[r])
  }

  lemma MergeOnlyDrops(c: Context, db: Db, s: State, e: MergeEntry)
    requires Intact(c, s.db) && OnlyDropped(db, s)
    ensures OnlyDropped(db, MergeStep(s, e, true))
  {
    hide SameMars, MergeStep, Merges, Listed;
    MergeKeepsMars(s, e);
    SameMarsFurther(db, s.db, MergeStep(s, e, true).db);
    if Listed(e) && Merges(s.db, e) { MergeDrops(s, e); } else { MergeSkips(s, e); }
  }

  lemma MergeSkips(s: State, e: MergeEntry)
    requires (forall m | m in s.db.mars :: s.db.mars[m].rio in s.db.rios) && !(Listed(e) && Merges(s.db, e))
    ensures MergeStep(s, e, true) == s.(counts := MergeStep(s, e, true).counts)
  {
  }

  lemma MergeKeepsMars(s: State, e: MergeEntry)
    requires forall m | m in s.db.mars :: s.db.mars[m].rio in s.db.rios
    ensures SameMars(s.db, MergeStep(s, e, true).db)
  {
  }

  lemma SameMarsFurther(a: Db, b: Db, c: Db)
    requires SameMars(a, b) && SameMars(b, c)
    ensures SameMars(a, c)
  {
  }

  lemma MergeDrops(s: State, e: MergeEntry)
    requires (forall m | m in s.db.mars :: s.db.mars[m].rio in s.db.rios) && Listed(e) && Merges(s.db, e)
    ensures var s' := MergeStep(s, e, true);
      && e.drop in s.db.rios && s'.planned == s.planned[e.drop := None]
      && s'.db.rios == s.db.rios[e.drop := s.db.rios[e.drop].(routing := "descarte")]
  {
  }

  lemma {:induction false} AppliedMergesOnlyDrop(c: Context, db: Db, es: seq<MergeEntry>)
    requires Intact(c, db)
    ensures OnlyDropped(db, AllMerges(c, State(db, map[], NOTHING), es, true))
  {
    if es != [] {
      AppliedMergesOnlyDrop(c, db, es[..|es| - 1]);
      MergeOnlyDrops(c, db, AllMerges(c, State(db, map[], NOTHING), es[..|es| - 1], true), es[|es| - 1]);
      hide OnlyDropped, MergeStep;
    }
  }

  predicate Drops(db: Db, e: MergeEntry, r: Ref)
    requires forall s | s in db.mars :: db.mars[s].rio in db.rios
  {
    Listed(e) && Merges(db, e) && e.drop == r
  }

  predicate DroppedBy(db: Db, es: seq<MergeEntry>, r: Ref)
    requires forall s | s in db.mars :: db.mars[s].rio in db.rios
  {
    exists i | 0 <= i < |es| :: Drops(db, es[i], r)
  }

  lemma DroppedBySnoc(db: Db, es: seq<MergeEntry>, r: Ref)
    requires es != [] && forall s | s in db.mars :: db.mars[s].rio in db.rios
    ensures DroppedBy(db, es, r) <==> (DroppedBy(db, es[..|es| - 1], r) || Drops(db, es[|es| - 1], r))
  {
    var init := es[..|es| - 1];
    if i :| 0 <= i < |es| && Drops(db, es[i], r) {
      if i < |init| { assert Drops(db, init[i], r); }
    }
    if i :| 0 <= i < |init| && Drops(db, init[i], r) {
      assert Drops(db, es[i], r);
    }
  }

  lemma {:induction false} DryMergesPlanTheDrops(c: Context, db: Db, es: seq<MergeEntry>)
    requires Intact(c, db)
    ensures var dry := AllMerges(c, State(db, map[], NOTHING), es, false);
      && dry.db == db
      && (forall r :: r in dry.planned <==> DroppedBy(db, es, r))
      && (forall r | r in dry.planned :: dry.planned[r].None? && r in db.rios)
  {
    if es != [] {
      DryMergesPlanTheDrops(c, db, es[..|es| - 1]);
      forall r ensures DroppedBy(db, es, r) <==> (DroppedBy(db, es[..|es| - 1], r) || Drops(db, es[|es| - 1], r)) {
        DroppedBySnoc(db, es, r);
      }
    }
  }

  lemma ClashFreeSnoc(db: Db, es: seq<MergeEntry>)
    requires es != [] && forall s | s in db.mars :: db.mars[s].rio in db.rios
    ensures ClashFree(db, es) <==>
      (ClashFree(db, es[..|es| - 1]) && forall i | 0 <= i < |es| - 1 :: !Clashes(db, es[i], es[|es| - 1]))
  {
    var init := es[..|es| - 1];
    if ClashFree(db, es) {
      forall i, j | 0 <= i < j < |init| ensures !Clashes(db, init[i], init[j]) {
        assert init[i] == es[i] && init[j] == es[j];
      }
    }
    if ClashFree(db, init) && forall i | 0 <= i < |es| - 1 :: !Clashes(db, es[i], es[|es| - 1]) {
      forall i, j | 0 <= i < j < |es| ensures !Clashes(db, es[i], es[j]) {
        if j < |init| { assert init[i] == es[i] && init[j] == es[j]; }
      }
    }
  }

  /** The dry run counts the merges --apply makes exactly when no entry needs a record an earlier
      one drops; it never counts fewer. */
  lemma {:induction false} DryMergesAgreeIffClashFree(c: Context, db: Db, es: seq<MergeEntry>)
    requires Intact(c, db)
    ensures var s := State(db, map[], NOTHING);
      var dry, done := AllMerges(c, s, es, false), AllMerges(c, s, es, true);
      && (dry.counts.merge == done.counts.merge <==> ClashFree(db, es))
      && done.counts.merge <= dry.counts.merge
      && (ClashFree(db, es) ==> dry.counts == done.counts && dry.planned == done.planned)
  {
    if es != [] {
      var init, e := es[..|es| - 1], es[|es| - 1];
      DryMergesAgreeIffClashFree(c, db, init);
      AppliedMergesOnlyDrop(c, db, init);
      DryMergesPlanTheDrops(c, db, init);
      ClashFreeSnoc(db, es);
      var s := State(db, map[], NOTHING);
      var dry, done := AllMerges(c, s, init, false), AllMerges(c, s, init, true);
      MergeSees(db, done, e);
      if ClashFree(db, init) {
        LastClash(c, db, es, done);
      }
    }
  }

  /** --apply merges an entry iff it was mergeable beforehand and needs nothing dropped since. */
  lemma MergeSees(db: Db, done: State, e: MergeEntry)
    requires (forall s | s in db.mars :: db.mars[s].rio in db.rios) && OnlyDropped(db, done)
    ensures (forall s | s in done.db.mars :: done.db.mars[s].rio in done.db.rios)
    ensures Merges(done.db, e) <==>
      Merges(db, e) && e.drop !in done.planned && db.mars[e.keep].rio !in done.planned
  {
  }

  lemma LastClash(c: Context, db: Db, es: seq<MergeEntry>, done: State)
    requires Intact(c, db) && es != []
    requires forall r :: r in done.planned <==> DroppedBy(db, es[..|es| - 1], r)
    ensures var e := es[|es| - 1];
      Listed(e) && Merges(db, e) ==>
        ((e.drop in done.planned || db.mars[e.keep].rio in done.planned) <==>
          exists i | 0 <= i < |es| - 1 :: Clashes(db, es[i], e))
  {
    var e, init := es[|es| - 1], es[..|es| - 1];
    if Listed(e) && Merges(db, e) {
      forall r | r in done.planned && (r == e.drop || r == db.mars[e.keep].rio)
        ensures exists i | 0 <= i < |es| - 1 :: Clashes(db, es[i], e)
      {
        var i :| 0 <= i < |init| && Drops(db, init[i], r);
        assert Clashes(db, es[i], e);
      }
      if i :| 0 <= i < |es| - 1 && Clashes(db, es[i], e) {
        assert Drops(db, init[i], es[i].drop);
      }
    }
  }
}
