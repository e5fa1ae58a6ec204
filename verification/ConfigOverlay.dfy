/**
 The runtime config: the env AppConfig overlaid with the config_settings rows, the rows' cache in
 Redis, and the listeners that drop it once a config write commits.
 */
module ConfigOverlay {
  import opened Common

  datatype Json = JNull | JBool(b: bool) | JNum(n: int) | JStr(s: string) | JList(empty: bool)

  /** Python's bool(). */
  function Truthy(v: Json): bool {
    match v
    case JNull => false
    case JBool(b) => b
    case JNum(n) => n != 0
    case JStr(s) => s != ""
    case JList(empty) => !empty
  }

  /** False: null, false, zero, the empty string and the empty list. */
  lemma FalsyIs(v: Json)
    ensures !Truthy(v) <==> v in {JNull, JBool(false), JNum(0), JStr(""), JList(true)}
  {
  }

  // ---- The registry -----------------------------------------------------------------------

  datatype Head =
    | Score | Sources | Engine
    | DescriptionEnrichment | PlacesEnrichment | ImagesEnrichment | ImagesPush | DescriptionBatch | DescriptionCascade
    | OtherHead(name: string)

  datatype Part =
    | ThresholdMar | WeightOrigem | WeightCompletude | WeightCorroboracao | WeightAtualidade | WeightValidacaoHumana
    | Default | Tripadvisor | Mode
    | OtherPart(name: string)

  datatype Field = Top(head: Head) | Sub(head: Head, part: Part)

  datatype Kind = Threshold | Weight | Flag | EngineMode

  /** A dotted key: a registered one is named by the field it overrides. */
  datatype Key = Registered(field: Field) | Unknown(dotted: string)

  /** CONFIG_KEYS, in the order of declaration. */
  const CONFIG_KEYS: seq<(Field, Kind)> := [
    (Sub(Score, ThresholdMar), Threshold),
    (Sub(Score, WeightOrigem), Weight),
    (Sub(Score, WeightCompletude), Weight),
    (Sub(Score, WeightCorroboracao), Weight),
    (Sub(Score, WeightAtualidade), Weight),
    (Sub(Score, WeightValidacaoHumana), Weight),
    (Sub(Sources, Default), Flag),
    (Sub(Sources, Tripadvisor), Flag),
    (Sub(Engine, Mode), EngineMode),
    (Top(DescriptionEnrichment), Flag),
    (Top(PlacesEnrichment), Flag),
    (Top(ImagesEnrichment), Flag),
    (Top(ImagesPush), Flag),
    (Top(DescriptionBatch), Flag),
    (Top(DescriptionCascade), Flag)]

  predicate IsField(f: Field) {
    exists i | 0 <= i < |CONFIG_KEYS| :: CONFIG_KEYS[i].0 == f
  }

  lemma FieldIsListed(i: nat)
    requires i < |CONFIG_KEYS|
    ensures IsField(CONFIG_KEYS[i].0)
  {
  }

  function KindOf(f: Field): Kind {
    match f
    case Sub(Score, ThresholdMar) => Threshold
    case Sub(Score, _) => Weight
    case Sub(Engine, _) => EngineMode
    case _ => Flag
  }

  /** No two keys override one field, so a field has one kind. */
  lemma RegistryIsInjective(i: nat, j: nat)
    requires i < |CONFIG_KEYS| && j < |CONFIG_KEYS|
    ensures CONFIG_KEYS[i].0 == CONFIG_KEYS[j].0 ==> i == j
    ensures KindOf(CONFIG_KEYS[i].0) == CONFIG_KEYS[i].1
  {
  }

  /** What can be overridden: the threshold and five weights, two sources, the mode, six switches. */
  predicate Overridable(f: Field) {
    match f
    case Sub(Score, p) => p in {ThresholdMar, WeightOrigem, WeightCompletude, WeightCorroboracao, WeightAtualidade,
                                WeightValidacaoHumana}
    case Sub(Sources, p) => p == Default || p == Tripadvisor
    case Sub(Engine, p) => p == Mode
    case Top(h) => h in {DescriptionEnrichment, PlacesEnrichment, ImagesEnrichment, ImagesPush, DescriptionBatch,
                         DescriptionCascade}
    case _ => false
  }

  lemma RegistryIs(f: Field)
    ensures IsField(f) <==> Overridable(f)
  {
    if IsField(f) { ListedIsOverridable(f); }
    if Overridable(f) { OverridableIsListed(f); }
    hide IsField, Overridable;
  }

  lemma ListedIsOverridable(f: Field)
    requires IsField(f)
    ensures Overridable(f)
  {
    var i :| 0 <= i < |CONFIG_KEYS| && CONFIG_KEYS[i].0 == f;
  }

  lemma OverridableIsListed(f: Field)
    requires Overridable(f)
    ensures IsField(f)
  {
    match f
    case Sub(Score, p) => WeightIsListed(p);
    case Sub(Sources, p) => FieldIsListed(if p == Default then 6 else 7);
    case Sub(Engine, _) => FieldIsListed(8);
    case Top(h) => SwitchIsListed(h);
  }

  lemma WeightIsListed(p: Part)
    requires Overridable(Sub(Score, p))
    ensures IsField(Sub(Score, p))
  {
    FieldIsListed(match p
                  case ThresholdMar => 0
                  case WeightOrigem => 1
                  case WeightCompletude => 2
                  case WeightCorroboracao => 3
                  case WeightAtualidade => 4
                  case _ => 5);
  }

  lemma SwitchIsListed(h: Head)
    requires Overridable(Top(h))
    ensures IsField(Top(h))
  {
    FieldIsListed(match h
                  case DescriptionEnrichment => 9
                  case PlacesEnrichment => 10
                  case ImagesEnrichment => 11
                  case ImagesPush => 12
                  case DescriptionBatch => 13
                  case _ => 14);
  }

  // ---- AppConfig ----------------------------------------------------------------------------

  /** A field of AppConfig: a plain value, a dict, or a nested settings model. */
  datatype Node = Scalar(v: Json) | Dict(d: map<Part, Json>) | Model(d: map<Part, Json>)

  type Config = map<Head, Node>

  /** Every registered field is there; a dict (the sources) may lack its key. */
  ghost predicate Shaped(c: Config) {
    && Score in c && c[Score].Model? && Sources in c && c[Sources].Dict? && Engine in c && c[Engine].Model?
    && (forall p | IsField(Sub(Score, p)) :: p in c[Score].d) && Mode in c[Engine].d
    && (forall h | IsField(Top(h)) :: h in c && c[h].Scalar?)
  }

  /** ConfigKey.read */
  function Read(c: Config, f: Field): Json
    requires Shaped(c) && IsField(f)
  {
    FieldIsThere(c, f);
    match f
    case Top(h) => c[h].v
    case Sub(h, p) => if p in c[h].d then c[h].d[p] else JBool(false)
  }

  lemma FieldIsThere(c: Config, f: Field)
    requires Shaped(c) && IsField(f)
    ensures f.head in c && (if f.Top? then c[f.head].Scalar? else c[f.head].Model? || c[f.head].Dict?)
    ensures f.Sub? && c[f.head].Model? ==> f.part in c[f.head].d
  {
    var i :| 0 <= i < |CONFIG_KEYS| && CONFIG_KEYS[i].0 == f;
    if f.Top? { assert IsField(Top(f.head)); }
    if f.Sub? && f.head == Score { assert IsField(Sub(Score, f.part)); }
  }

  /** The flags of AppConfig are booleans. */
  ghost predicate Typed(c: Config)
    requires Shaped(c)
  {
    forall f | IsField(f) && KindOf(f) == Flag :: Read(c, f).JBool?
  }

  // ---- The overlay ----------------------------------------------------------------------------

  type Overlay = map<Key, Json>

  function Coerced(f: Field, v: Json): Json {
    if KindOf(f) == Flag then JBool(Truthy(v)) else v
  }

  /** The key overrides that field. */
  predicate Sets(o: Overlay, f: Field) {
    IsField(f) && Registered(f) in o
  }

  function Overlaid(o: Overlay, h: Head, d: map<Part, Json>): map<Part, Json> {
    d + map k | k in o && k.Registered? && IsField(k.field) && k.field.Sub? && k.field.head == h ::
      k.field.part := Coerced(k.field, o[Registered(Sub(h, k.field.part))])
  }

  function AppliedAt(o: Overlay, h: Head, n: Node): Node {
    match n
    case Scalar(v) => Scalar(if Sets(o, Top(h)) then Coerced(Top(h), o[Registered(Top(h))]) else v)
    case Dict(d) => Dict(Overlaid(o, h, d))
    case Model(d) => Model(Overlaid(o, h, d))
  }

  /** Field by field: the overlay's value where it has one, the base's elsewhere. */
  function Applied(base: Config, o: Overlay): Config {
    map h | h in base :: AppliedAt(o, h, base[h])
  }

  lemma OverlaidAt(o: Overlay, h: Head, d: map<Part, Json>, p: Part)
    ensures p in Overlaid(o, h, d) <==> p in d || Sets(o, Sub(h, p))
    ensures p in Overlaid(o, h, d) ==>
      Overlaid(o, h, d)[p] == if Sets(o, Sub(h, p)) then Coerced(Sub(h, p), o[Registered(Sub(h, p))]) else d[p]
  {
    if Sets(o, Sub(h, p)) {
      var k := Registered(Sub(h, p));
      assert k in o && k.field.part == p;
    }
  }

  lemma AppliedIsShaped(base: Config, o: Overlay)
    requires Shaped(base)
    ensures Shaped(Applied(base, o))
  {
    forall p | IsField(Sub(Score, p)) ensures p in Applied(base, o)[Score].d {
      OverlaidAt(o, Score, base[Score].d, p);
    }
    OverlaidAt(o, Engine, base[Engine].d, Mode);
  }

  /** Reading a registered key after an overlay gives the overlay's value, as a bool for a flag;
      the base's where the overlay has none. */
  lemma ReadsTheOverlay(base: Config, o: Overlay, f: Field)
    requires Shaped(base) && IsField(f)
    ensures Shaped(Applied(base, o))
    ensures Read(Applied(base, o), f) == if Registered(f) in o then Coerced(f, o[Registered(f)]) else Read(base, f)
  {
    AppliedIsShaped(base, o);
    FieldIsThere(base, f);
    if f.Sub? { OverlaidAt(o, f.head, base[f.head].d, f.part); }
  }

  lemma OverlaidCompose(o: Overlay, o': Overlay, h: Head, d: map<Part, Json>)
    ensures Overlaid(o', h, Overlaid(o, h, d)) == Overlaid(o + o', h, d)
  {
    hide IsField, Coerced;
    var once, both := Overlaid(o', h, Overlaid(o, h, d)), Overlaid(o + o', h, d);
    forall p
      ensures p in once <==> p in both
      ensures p in once ==> once[p] == both[p]
    {
      OverlaidAt(o, h, d, p);
      OverlaidAt(o', h, Overlaid(o, h, d), p);
      OverlaidAt(o + o', h, d, p);
      hide Overlaid;
    }
  }

  /** Overlays layer: the later one's rows win, key by key. */
  lemma OverlaysCompose(base: Config, o: Overlay, o': Overlay)
    ensures Applied(Applied(base, o), o') == Applied(base, o + o')
  {
    hide IsField, Coerced, Overlaid;
    forall h | h in base ensures Applied(Applied(base, o), o')[h] == Applied(base, o + o')[h] {
      if !base[h].Scalar? {
        OverlaidCompose(o, o', h, base[h].d);
      }
    }
  }

  /** Which of the keys seen so far override a field of a nested block. */
  ghost predicate Collected(o: Overlay, seen: set<Key>, top: map<Head, Json>, nested: map<Head, map<Part, Json>>) {
    && (forall h :: h in top <==> Sets(o, Top(h)) && Registered(Top(h)) in seen)
    && (forall h | h in top :: top[h] == Coerced(Top(h), o[Registered(Top(h))]))
    && (forall h, p :: (h in nested && p in nested[h]) <==> Sets(o, Sub(h, p)) && Registered(Sub(h, p)) in seen)
    && (forall h, p | h in nested && p in nested[h] :: nested[h][p] == Coerced(Sub(h, p), o[Registered(Sub(h, p))]))
  }

  /** The first loop of _apply_overlay: the rows by the field they override. */
  method Collect(o: Overlay) returns (top: map<Head, Json>, nested: map<Head, map<Part, Json>>)
    ensures Collected(o, o.Keys, top, nested)
    ensures forall h | h in nested :: exists p :: Sets(o, Sub(h, p))
  {
    hide IsField, KindOf, Truthy;
    top, nested := map[], map[];
    var todo := o.Keys;
    while todo != {}
      invariant todo <= o.Keys && Collected(o, o.Keys - todo, top, nested)
      invariant forall h | h in nested :: exists p :: Sets(o, Sub(h, p))
    {
      var dotted :| dotted in todo;
      todo := todo - {dotted};
      if dotted.Registered? && IsField(dotted.field) {
        var value := o[dotted];
        if KindOf(dotted.field) == Flag {
          value := JBool(Truthy(value));
        }
        match dotted.field {
          case Top(h) => top := top[h := value];
          case Sub(h, p) =>
            assert Sets(o, Sub(h, p));
            var block := if h in nested then nested[h] else map[];
            nested := nested[h := block[p := value]];
        }
      }
    }
    assert o.Keys - {} == o.Keys;
  }

  function BlockWith(n: Node, sub: map<Part, Json>): Node {
    match n
    case Dict(d) => Dict(d + sub)
    case Model(d) => Model(d + sub)
    case Scalar(v) => n
  }

  lemma CollectedFits(base: Config, o: Overlay, top: map<Head, Json>, nested: map<Head, map<Part, Json>>)
    requires Shaped(base) && Collected(o, o.Keys, top, nested)
    requires forall h | h in nested :: exists p :: Sets(o, Sub(h, p))
    ensures forall h | h in top :: h in base && base[h].Scalar?
    ensures forall h | h in nested :: h in base && !base[h].Scalar?
  {
    forall h | h in top ensures h in base && base[h].Scalar? { FieldIsThere(base, Top(h)); }
    forall h | h in nested ensures h in base && !base[h].Scalar? {
      var p :| Sets(o, Sub(h, p));
      FieldIsThere(base, Sub(h, p));
    }
  }

  /** What the overlay makes of one field, from the collected rows. */
  lemma CollectedNode(o: Overlay, top: map<Head, Json>, nested: map<Head, map<Part, Json>>, h: Head, n: Node)
    requires Collected(o, o.Keys, top, nested)
    requires h in top ==> n.Scalar?
    requires h in nested ==> !n.Scalar?
    ensures AppliedAt(o, h, n) ==
      if h in top then Scalar(top[h]) else if h in nested then BlockWith(n, nested[h]) else n
  {
    hide IsField, Coerced, Overlaid;
    if !n.Scalar? {
      CollectedParts(o, top, nested, h, n.d);
      assert n.d + map[] == n.d;
      hide Collected, Sets;
    }
  }

  lemma CollectedParts(o: Overlay, top: map<Head, Json>, nested: map<Head, map<Part, Json>>,
                       h: Head, d: map<Part, Json>)
    requires Collected(o, o.Keys, top, nested)
    ensures Overlaid(o, h, d) == d + if h in nested then nested[h] else map[]
  {
    var sub := if h in nested then nested[h] else map[];
    hide IsField, Coerced, Sets, Overlaid, Collected;
    forall p
      ensures p in Overlaid(o, h, d) <==> p in d || p in sub
      ensures p in Overlaid(o, h, d) ==> Overlaid(o, h, d)[p] == if p in sub then sub[p] else d[p]
    {
      OverlaidAt(o, h, d, p);
      CollectedPart(o, top, nested, h, p);
    }
    SameParts(Overlaid(o, h, d), d, sub);
  }

  lemma SameParts(m: map<Part, Json>, d: map<Part, Json>, sub: map<Part, Json>)
    requires forall p :: p in m <==> p in d || p in sub
    requires forall p | p in m :: m[p] == if p in sub then sub[p] else d[p]
    ensures m == d + sub
  {
    assert m.Keys == (d + sub).Keys;
  }

  lemma CollectedPart(o: Overlay, top: map<Head, Json>, nested: map<Head, map<Part, Json>>, h: Head, p: Part)
    requires Collected(o, o.Keys, top, nested)
    ensures var sub := if h in nested then nested[h] else map[];
      && (p in sub <==> Sets(o, Sub(h, p)))
      && (p in sub ==> Registered(Sub(h, p)) in o && sub[p] == Coerced(Sub(h, p), o[Registered(Sub(h, p))]))
  {
    assert Sets(o, Sub(h, p)) ==> Registered(Sub(h, p)) in o;
    hide IsField, Coerced, Sets;
  }

  ghost predicate UpdatesOf(base: Config, top: map<Head, Json>, nested: map<Head, map<Part, Json>>, updates: Config) {
    && (forall h :: h in updates <==> h in top || h in nested)
    && (forall h | h in top :: updates[h] == Scalar(top[h]))
    && (forall h | h in nested :: h in base && updates[h] == BlockWith(base[h], nested[h]))
  }

  /** The second loop: a block is copied with its new values. */
  method Updates(base: Config, top: map<Head, Json>, nested: map<Head, map<Part, Json>>) returns (updates: Config)
    requires (forall h | h in nested :: h in base && h !in top)
    ensures UpdatesOf(base, top, nested, updates)
  {
    hide BlockWith;
    updates := map h | h in top :: Scalar(top[h]);
    var todo := nested.Keys;
    while todo != {}
      invariant todo <= nested.Keys
      invariant forall h :: h in updates <==> h in top || (h in nested && h !in todo)
      invariant forall h | h in top :: updates[h] == Scalar(top[h])
      invariant forall h | h in nested && h !in todo :: updates[h] == BlockWith(base[h], nested[h])
    {
      var h :| h in todo;
      updates := updates[h := BlockWith(base[h], nested[h])];
      todo := todo - {h};
    }
  }

  lemma UpdatesAreTheOverlay(base: Config, o: Overlay, top: map<Head, Json>, nested: map<Head, map<Part, Json>>,
                             updates: Config)
    requires Shaped(base) && Collected(o, o.Keys, top, nested)
    requires forall h | h in top :: h in base && base[h].Scalar?
    requires forall h | h in nested :: h in base && !base[h].Scalar?
    requires UpdatesOf(base, top, nested, updates)
    ensures base + updates == Applied(base, o)
  {
    hide Shaped, Collected, Sets, AppliedAt, BlockWith;
    forall h | h in base
      ensures AppliedAt(o, h, base[h]) == if h in updates then updates[h] else base[h]
    {
      CollectedNode(o, top, nested, h, base[h]);
    }
  }

  /** _apply_overlay */
  method ApplyOverlay(base: Config, o: Overlay) returns (c: Config)
    requires Shaped(base)
    ensures c == Applied(base, o)
  {
    hide Shaped, Collected, UpdatesOf, Applied;
    var top, nested := Collect(o);
    CollectedFits(base, o, top, nested);
    var updates := Updates(base, top, nested);
    UpdatesAreTheOverlay(base, o, top, nested, updates);
    if updates == map[] {
      return base;
    }
    return base + updates;
  }

  // ---- Rows and the seed ----------------------------------------------------------------------

  /** A row's value column: the {"v": …} wrapper, or anything else. */
  datatype Row = Wrapped(v: Json) | Malformed
  type Rows = map<Key, Row>

  function OverlayOf(rows: Rows): Overlay {
    map k | k in rows && k.Registered? && IsField(k.field) && rows[k].Wrapped? :: rows[k].v
  }

  /** _seed_values of the first n keys, wrapped. */
  function SeedFirst(base: Config, n: nat): Rows
    requires Shaped(base) && n <= |CONFIG_KEYS|
  {
    if n == 0 then map[]
    else
      var f := CONFIG_KEYS[n - 1].0;
      assert IsField(f);
      SeedFirst(base, n - 1)[Registered(f) := Wrapped(Read(base, f))]
  }

  function SeedRows(base: Config): Rows
    requires Shaped(base)
  {
    SeedFirst(base, |CONFIG_KEYS|)
  }

  lemma SeedOneMore(base: Config, n: nat)
    requires Shaped(base) && n < |CONFIG_KEYS|
    ensures SeedFirst(base, 0) == map[] && IsField(CONFIG_KEYS[n].0)
    ensures var f := CONFIG_KEYS[n].0;
      SeedFirst(base, n + 1) == SeedFirst(base, n)[Registered(f) := Wrapped(Read(base, f))]
  {
    FieldIsListed(n);
    hide IsField, Shaped, Read;
  }

  lemma {:induction false} SeedFirstAt(base: Config, n: nat, k: Key)
    requires Shaped(base) && n <= |CONFIG_KEYS|
    ensures k in SeedFirst(base, n) <==> exists i | 0 <= i < n :: Registered(CONFIG_KEYS[i].0) == k
    ensures k in SeedFirst(base, n) ==>
      k.Registered? && IsField(k.field) && SeedFirst(base, n)[k] == Wrapped(Read(base, k.field))
  {
    hide Read, Shaped, IsField;
    if n > 0 {
      SeedFirstAt(base, n - 1, k);
      FieldIsListed(n - 1);
      assert Registered(CONFIG_KEYS[n - 1].0) in SeedFirst(base, n);
    }
  }

  lemma SeedRowsAt(base: Config, k: Key)
    requires Shaped(base)
    ensures k in SeedRows(base) <==> k.Registered? && IsField(k.field)
    ensures k in SeedRows(base) ==> SeedRows(base)[k] == Wrapped(Read(base, k.field))
  {
    SeedFirstAt(base, |CONFIG_KEYS|, k);
    if k.Registered? && IsField(k.field) {
      var i :| 0 <= i < |CONFIG_KEYS| && CONFIG_KEYS[i].0 == k.field;
      assert Registered(CONFIG_KEYS[i].0) == k;
    }
  }

  /** Seeding inserts what is absent and leaves every existing row. */
  function Seeded(base: Config, rows: Rows): Rows
    requires Shaped(base)
  {
    SeedRows(base) + rows
  }

  /** Whatever rows there are, seeding them changes no registered reading. */
  lemma SeedingChangesNoReading(base: Config, rows: Rows, f: Field)
    requires Shaped(base) && Typed(base) && IsField(f)
    ensures Shaped(Applied(base, OverlayOf(rows))) && Shaped(Applied(base, OverlayOf(Seeded(base, rows))))
    ensures Read(Applied(base, OverlayOf(Seeded(base, rows))), f) == Read(Applied(base, OverlayOf(rows)), f)
  {
    SeedRowsAt(base, Registered(f));
    ReadsTheOverlay(base, OverlayOf(rows), f);
    ReadsTheOverlay(base, OverlayOf(Seeded(base, rows)), f);
    if KindOf(f) == Flag { assert Read(base, f).JBool?; }
  }

  /** The overlay of a freshly seeded table. */
  function SeedOverlay(base: Config): Overlay
    requires Shaped(base)
  {
    OverlayOf(SeedRows(base))
  }

  /** It sets every registered field to what the base reads, already a bool for a flag. */
  lemma SeedOverlayAt(base: Config, f: Field)
    requires Shaped(base) && Typed(base)
    ensures Sets(SeedOverlay(base), f) <==> IsField(f)
    ensures IsField(f) ==> Coerced(f, SeedOverlay(base)[Registered(f)]) == Read(base, f)
  {
    SeedRowsAt(base, Registered(f));
    if IsField(f) && KindOf(f) == Flag { assert Read(base, f).JBool?; }
  }

  lemma SourceFields(p: Part)
    ensures IsField(Sub(Sources, p)) <==> p == Default || p == Tripadvisor
  {
    assert CONFIG_KEYS[6].0 == Sub(Sources, Default) && CONFIG_KEYS[7].0 == Sub(Sources, Tripadvisor);
  }

  lemma SeededPart(base: Config, h: Head, p: Part)
    requires Shaped(base) && Typed(base) && h in base && !base[h].Scalar?
    ensures var o, d := SeedOverlay(base), base[h].d;
      && (p in Overlaid(o, h, d) <==> p in d || IsField(Sub(h, p)))
      && (p in d ==> Overlaid(o, h, d)[p] == d[p])
      && (IsField(Sub(h, p)) && base[h].Model? ==> p in d)
  {
    OverlaidAt(SeedOverlay(base), h, base[h].d, p);
    SeedOverlayAt(base, Sub(h, p));
    if IsField(Sub(h, p)) { FieldIsThere(base, Sub(h, p)); }
    hide SeedOverlay, Overlaid, IsField, Typed, KindOf, Shaped;
  }

  lemma SeededScalar(base: Config, h: Head)
    requires Shaped(base) && Typed(base) && h in base && base[h].Scalar?
    ensures AppliedAt(SeedOverlay(base), h, base[h]) == base[h]
  {
    SeedOverlayAt(base, Top(h));
    hide SeedOverlay, IsField, Typed, Shaped, Coerced;
  }

  /** One field of the config after the seed: the same, but for a dict that lacks a registered key. */
  lemma SeededNode(base: Config, h: Head)
    requires Shaped(base) && Typed(base) && h in base
    ensures AppliedAt(SeedOverlay(base), h, base[h]) == base[h] <==>
      (base[h].Dict? ==> forall p | IsField(Sub(h, p)) :: p in base[h].d)
  {
    hide SeedOverlay, Overlaid, IsField, Typed, KindOf, Shaped, Coerced, Sets, Read;
    var o := SeedOverlay(base);
    if base[h].Scalar? {
      SeededScalar(base, h);
    } else {
      var d := base[h].d;
      forall p
        ensures p in Overlaid(o, h, d) <==> p in d || IsField(Sub(h, p))
        ensures p in d ==> Overlaid(o, h, d)[p] == d[p]
        ensures IsField(Sub(h, p)) && base[h].Model? ==> p in d
      {
        SeededPart(base, h, p);
      }
      assert (forall p | IsField(Sub(h, p)) :: p in d) ==> Overlaid(o, h, d) == d;
    }
  }

  lemma OnlySourcesDiffer(base: Config, h: Head)
    requires Shaped(base) && Typed(base) && h in base && (base[h].Dict? ==> h == Sources)
    ensures AppliedAt(SeedOverlay(base), h, base[h]) == base[h] <==>
      (base[h].Dict? ==> Default in base[h].d && Tripadvisor in base[h].d)
  {
    hide SeedOverlay, AppliedAt, Typed, IsField, Shaped;
    SeededNode(base, h);
    forall p ensures IsField(Sub(Sources, p)) <==> p == Default || p == Tripadvisor { SourceFields(p); }
  }

  /** A freshly seeded table gives back the very same config exactly when the base lists both
      sources: the seed adds the one it lacks, as disabled. */
  lemma SeedIsIdentityIffSourcesListed(base: Config)
    requires Shaped(base) && Typed(base) && forall h | h in base && base[h].Dict? :: h == Sources
    ensures Applied(base, SeedOverlay(base)) == base <==>
      (Default in base[Sources].d && Tripadvisor in base[Sources].d)
  {
    assert Sources in base && base[Sources].Dict?;
    hide SeedOverlay, AppliedAt, Typed, Shaped;
    forall h | h in base
      ensures AppliedAt(SeedOverlay(base), h, base[h]) == base[h] <==>
        (base[h].Dict? ==> Default in base[h].d && Tripadvisor in base[h].d)
    {
      OnlySourcesDiffer(base, h);
    }
    SameIffSameNodes(base, SeedOverlay(base));
    hide Applied;
  }

  lemma SameIffSameNodes(base: Config, o: Overlay)
    ensures Applied(base, o) == base <==> forall h | h in base :: AppliedAt(o, h, base[h]) == base[h]
  {
    var applied := Applied(base, o);
    assert applied.Keys == base.Keys;
    assert forall h | h in base :: applied[h] == AppliedAt(o, h, base[h]);
    hide AppliedAt;
  }

  /** enabled_sources; the added entry is invisible to it. */
  function EnabledSources(c: Config): set<Part>
    requires Shaped(c)
  {
    set p | p in c[Sources].d && Truthy(c[Sources].d[p])
  }

  lemma SeedEnablesNoSource(base: Config)
    requires Shaped(base) && Typed(base)
    ensures Shaped(Applied(base, SeedOverlay(base)))
    ensures EnabledSources(Applied(base, SeedOverlay(base))) == EnabledSources(base)
  {
    var o := SeedOverlay(base);
    AppliedIsShaped(base, o);
    hide SeedOverlay, Typed, Coerced, KindOf, IsField, Overlaid;
    forall p
      ensures p in EnabledSources(Applied(base, o)) <==> p in EnabledSources(base)
    {
      OverlaidAt(o, Sources, base[Sources].d, p);
      SeedOverlayAt(base, Sub(Sources, p));
    }
  }
}
