/**
 The distritos of a município: a one-slot cache of the last list grouped by município code, and
 the name resolvers above it. The text folding and the fuzzy scorer are taken as given.
 */
module Distritos {
  import opened Common

  type Code = string

  datatype Distrito = Distrito(code: string, nome: string, ibge: Code, municipioNome: string, uf: string)

  /** `fold`: apostrophes and accents off; `seat`: accents off, casefolded; `process` and `score`:
      the fuzzy matcher's normalisation and ratio. */
  datatype Text = Text(
    fold: string -> string, seat: string -> string, process: string -> string, score: (string, string) -> int)

  /** A município's distritos in list order, and their folded names. */
  datatype Bucket = Bucket(distritos: seq<Distrito>, choices: seq<string>)

  // ---- A fresh filter -----------------------------------------------------------------------

  function Of(items: seq<Distrito>, code: Code): seq<Distrito> {
    if items == [] then []
    else
      var before, d := Of(items[..|items| - 1], code), items[|items| - 1];
      if d.ibge == code then before + [d] else before
  }

  function Names(t: Text, ds: seq<Distrito>): (names: seq<string>)
    ensures |names| == |ds| && forall i | 0 <= i < |ds| :: names[i] == t.fold(ds[i].nome)
  {
    seq(|ds|, i requires 0 <= i < |ds| => t.fold(ds[i].nome))
  }

  function Fresh(t: Text, items: seq<Distrito>, code: Code): Bucket {
    Bucket(Of(items, code), Names(t, Of(items, code)))
  }

  /** The filter keeps exactly the distritos of the code, in their order. */
  lemma {:induction false} OfKeepsOrder(items: seq<Distrito>, code: Code) returns (at: seq<nat>)
    ensures |at| == |Of(items, code)|
    ensures forall j | 0 <= j < |at| ::
      at[j] < |items| && items[at[j]] == Of(items, code)[j] && items[at[j]].ibge == code
    ensures forall j, k | 0 <= j < k < |at| :: at[j] < at[k]
    ensures forall i | 0 <= i < |items| && items[i].ibge == code :: i in at
  {
    if items == [] {
      at := [];
    } else {
      at := OfKeepsOrder(items[..|items| - 1], code);
      if items[|items| - 1].ibge == code {
        at := at + [|items| - 1];
      }
    }
  }

  // ---- The cache ----------------------------------------------------------------------------

  /** A Python list: an object that callers hold on to and append to. */
  class DistritoList {
    var items: seq<Distrito>

    constructor (items: seq<Distrito>)
      ensures this.items == items
    {
      this.items := items;
    }

    method Append(d: Distrito)
      modifies this
      ensures items == old(items) + [d]
    {
      items := items + [d];
    }
  }

  /** The list it was built from, its length then, and the buckets. */
  datatype Slot = Slot(list: DistritoList, len: nat, grouped: map<Code, Bucket>)

  class Resolver {
    const t: Text
    var slot: Option<Slot>

    constructor (t: Text)
      ensures this.t == t && slot.None?
    {
      this.t, slot := t, None;
    }

    /** The slot holds the buckets of what its list began with. */
    ghost predicate Sound()
      reads this, if slot.Some? then {slot.value.list} else {}
    {
      slot.Some? ==>
        && slot.value.len <= |slot.value.list.items|
        && Grouped(t, slot.value.list.items[..slot.value.len], slot.value.grouped)
    }

    /** The cached list, as long as it is now. */
    predicate Hits(distritos: DistritoList)
      reads this, distritos
    {
      slot.Some? && slot.value.list == distritos && slot.value.len == |distritos.items|
    }

    /** _municipio_bucket. On a hit it answers for whatever contents the slot was built from. */
    method Lookup(distritos: DistritoList, code: Code, ghost built: seq<Distrito>) returns (b: Bucket)
      requires Hits(distritos) ==> Grouped(t, built, slot.value.grouped)
      modifies this
      ensures Hits(distritos) && Grouped(t, if old(Hits(distritos)) then built else distritos.items, slot.value.grouped)
      ensures b == Fresh(t, if old(Hits(distritos)) then built else distritos.items, code)
    {
      hide Grouped, Fresh;
      ghost var contents := if Hits(distritos) then built else distritos.items;
      if slot.None? || slot.value.list != distritos || slot.value.len != |distritos.items| {
        var grouped := GroupAll(t, distritos.items);
        slot := Some(Slot(distritos, |distritos.items|, grouped));
      }
      BucketIsFresh(t, contents, slot.value.grouped, code);
      b := if code in slot.value.grouped then slot.value.grouped[code] else Bucket([], []);
    }

    /** While lists only grow, it always answers as a fresh filter of the list. */
    method MunicipioBucket(distritos: DistritoList, code: Code) returns (b: Bucket)
      requires Sound()
      modifies this
      ensures Sound() && Hits(distritos)
      ensures b == Fresh(t, distritos.items, code)
    {
      hide Grouped, Fresh;
      assert distritos.items[..|distritos.items|] == distritos.items;
      b := Lookup(distritos, code, distritos.items);
    }

    /** resolve_distrito: the first best-scored distrito of the município, if it scores enough. */
    method ResolveDistrito(name: Option<string>, code: Code, distritos: DistritoList, threshold: int)
      returns (r: Option<Distrito>)
      requires Sound()
      modifies this
      ensures Sound()
      ensures r == Resolved(t, name, code, distritos.items, threshold)
    {
      if name.None? || Blank(name.value) { return None; }
      var b := MunicipioBucket(distritos, code);
      if b.distritos == [] { return None; }
      var hit := ExtractOne(t, t.process(t.fold(name.value)), b.choices, threshold);
      return if hit.Some? then Some(b.distritos[hit.value]) else None;
    }

    /** resolve_distrito_place: never the seat, the distrito that bears its município's name. */
    method ResolvePlace(place: string, code: Code, distritos: DistritoList, threshold: int)
      returns (r: Option<Distrito>)
      requires Sound()
      modifies this
      ensures Sound()
      ensures r.Some? ==> r == Resolved(t, Some(place), code, distritos.items, threshold) && !IsSeat(t, r.value)
      ensures r.None? ==> var found := Resolved(t, Some(place), code, distritos.items, threshold);
        found.None? || IsSeat(t, found.value)
    {
      if place == "" { return None; }
      var found := ResolveDistrito(Some(place), code, distritos, threshold);
      if found.None? || t.seat(found.value.nome) == t.seat(found.value.municipioNome) { return None; }
      return found;
    }
  }

  ghost predicate Grouped(t: Text, items: seq<Distrito>, g: map<Code, Bucket>) {
    && (forall c | c in g :: g[c] == Fresh(t, items, c))
    && (forall d | d in items :: d.ibge in g)
  }

  /** The grouping pass. */
  method GroupAll(t: Text, items: seq<Distrito>) returns (grouped: map<Code, Bucket>)
    ensures Grouped(t, items, grouped)
  {
    hide Grouped, Fresh;
    grouped := map[];
    NothingGrouped(t);
    for i := 0 to |items|
      invariant Grouped(t, items[..i], grouped)
    {
      var d := items[i];
      var bucket := if d.ibge in grouped then grouped[d.ibge] else Bucket([], []);
      OneMore(t, items, i, grouped);
      grouped := grouped[d.ibge := Bucket(bucket.distritos + [d], bucket.choices + [t.fold(d.nome)])];
    }
    assert items[..|items|] == items;
  }

  lemma NothingGrouped(t: Text)
    ensures Grouped(t, [], map[])
  {
  }

  lemma OneMore(t: Text, items: seq<Distrito>, i: nat, before: map<Code, Bucket>)
    requires i < |items| && Grouped(t, items[..i], before)
    ensures var d := items[i];
      var bucket := if d.ibge in before then before[d.ibge] else Bucket([], []);
      Grouped(t, items[..i + 1],
              before[d.ibge := Bucket(bucket.distritos + [d], bucket.choices + [t.fold(d.nome)])])
  {
    var d := items[i];
    assert items[..i + 1] == items[..i] + [d];
    assert items[..i + 1][..i] == items[..i];
    BucketIsFresh(t, items[..i], before, d.ibge);
    assert Names(t, Of(items[..i], d.ibge) + [d]) == Names(t, Of(items[..i], d.ibge)) + [t.fold(d.nome)];
  }

  lemma BucketIsFresh(t: Text, items: seq<Distrito>, g: map<Code, Bucket>, code: Code)
    requires Grouped(t, items, g)
    ensures Fresh(t, items, code) == if code in g then g[code] else Bucket([], [])
  {
    if code !in g {
      OfNone(items, code);
      assert Names(t, []) == [];
    }
  }

  lemma {:induction false} OfNone(items: seq<Distrito>, code: Code)
    requires forall d | d in items :: d.ibge != code
    ensures Of(items, code) == []
  {
    if items != [] {
      assert items[|items| - 1] in items;
      OfNone(items[..|items| - 1], code);
    }
  }

  // ---- Any sequence of calls ------------------------------------------------------------------

  /** One caller's step: an append to one of the lists, or a question about one of them. */
  datatype Op = Grow(list: nat, d: Distrito) | Ask(list: nat, code: Code)

  function Grown(contents: seq<seq<Distrito>>, op: Op): (r: seq<seq<Distrito>>)
    ensures |r| == |contents|
  {
    if op.Grow? && op.list < |contents| then contents[op.list := contents[op.list] + [op.d]] else contents
  }

  /** What the lists hold after the first steps. */
  function After(contents: seq<seq<Distrito>>, ops: seq<Op>): (r: seq<seq<Distrito>>)
    ensures |r| == |contents|
  {
    if ops == [] then contents else Grown(After(contents, ops[..|ops| - 1]), ops[|ops| - 1])
  }

  method Step(r: Resolver, lists: seq<DistritoList>, op: Op) returns (answer: Option<Bucket>)
    requires r.Sound()
    requires forall i, j | 0 <= i < j < |lists| :: lists[i] != lists[j]
    modifies r, lists
    ensures r.Sound() && Contents(lists) == Grown(old(Contents(lists)), op)
    ensures op.Ask? && op.list < |lists| ==> answer == Some(Fresh(r.t, old(Contents(lists))[op.list], op.code))
  {
    hide Fresh, Grouped;
    answer := None;
    if op.list < |lists| {
      if op.Grow? {
        ghost var was := lists[op.list].items;
        lists[op.list].Append(op.d);
        if r.slot.Some? && r.slot.value.list == lists[op.list] {
          assert (was + [op.d])[..r.slot.value.len] == was[..r.slot.value.len];
        }
      } else {
        var b := r.MunicipioBucket(lists[op.list], op.code);
        answer := Some(b);
      }
    }
  }

  /** Whatever the callers interleave over whatever lists, every answer is a fresh filter of the
      list as it stands at that moment. */
  method Serve(r: Resolver, lists: seq<DistritoList>, ops: seq<Op>) returns (answers: seq<Option<Bucket>>)
    requires r.Sound()
    requires forall i, j | 0 <= i < j < |lists| :: lists[i] != lists[j]
    modifies r, lists
    ensures r.Sound() && |answers| == |ops|
    ensures forall k | 0 <= k < |ops| && ops[k].Ask? && ops[k].list < |lists| ::
      answers[k] == Some(Fresh(r.t, After(old(Contents(lists)), ops[..k])[ops[k].list], ops[k].code))
  {
    hide Fresh, Grouped, Grown;
    answers := [];
    ghost var start := Contents(lists);
    while |answers| < |ops|
      invariant |answers| <= |ops| && r.Sound()
      invariant Contents(lists) == After(start, ops[..|answers|])
      invariant forall k | 0 <= k < |answers| && ops[k].Ask? && ops[k].list < |lists| ::
        answers[k] == Some(Fresh(r.t, After(start, ops[..k])[ops[k].list], ops[k].code))
    {
      assert ops[..|answers| + 1][..|answers|] == ops[..|answers|];
      var answer := Step(r, lists, ops[|answers|]);
      answers := answers + [answer];
    }
  }

  ghost function Contents(lists: seq<DistritoList>): (c: seq<seq<Distrito>>)
    reads lists
    ensures |c| == |lists|
  {
    seq(|lists|, i requires 0 <= i < |lists| reads lists => lists[i].items)
  }

  /** A replacement does not show in the filter exactly when it replaces nothing, or is of another
      município on both sides. */
  lemma {:induction false} ReplacementShowsIff(items: seq<Distrito>, i: nat, d: Distrito, code: Code)
    requires i < |items|
    ensures Of(items[i := d], code) == Of(items, code) <==> d == items[i] || (d.ibge != code && items[i].ibge != code)
    ensures |Of(items[i := d], code)| == |Of(items, code)|
      - (if items[i].ibge == code then 1 else 0) + (if d.ibge == code then 1 else 0)
  {
    var n := |items| - 1;
    if i == n {
      var rest := Of(items[..n], code);
      assert items[i := d][..n] == items[..n];
      assert (rest + [d])[|rest|] == d && (rest + [items[i]])[|rest|] == items[i];
      assert |rest + [d]| == |rest| + 1 == |rest + [items[i]]|;
    } else {
      assert items[i := d][..n] == items[..n][i := d];
      ReplacementShowsIff(items[..n], i, d, code);
      SameEnd(Of(items[..n][i := d], code), Of(items[..n], code), items[n]);
    }
  }

  lemma SameEnd(a: seq<Distrito>, b: seq<Distrito>, x: Distrito)
    ensures a + [x] == b + [x] <==> a == b
  {
    assert (a + [x])[..|a|] == a && (b + [x])[..|b|] == b;
    assert |a + [x]| == |a| + 1 && |b + [x]| == |b| + 1;
  }

  /** A record replaced in place keeps the list's identity and length, so the resolver answers for
      the list as it was: rightly exactly when the record replaced is the same, or neither it nor
      the new one is of the município asked for. */
  method ReplacingFoolsTheCache(r: Resolver, list: DistritoList, i: nat, d: Distrito, code: Code) returns (b: Bucket)
    requires r.Sound() && r.Hits(list) && i < |list.items|
    modifies list, r
    ensures list.items == old(list.items)[i := d]
    ensures b == Fresh(r.t, old(list.items), code)
    ensures b == Fresh(r.t, list.items, code) <==>
      (d == old(list.items)[i] || (d.ibge != code && old(list.items)[i].ibge != code))
  {
    assert list.items[..|list.items|] == list.items;
    list.items := list.items[i := d];
    b := r.Lookup(list, code, old(list.items));
    ReplacementShowsIff(old(list.items), i, d, code);
  }

  // ---- The resolvers --------------------------------------------------------------------------

  /** The first of the best scores, if it reaches the cutoff. */
  ghost predicate FirstBest(t: Text, hint: string, choices: seq<string>, threshold: int, i: nat) {
    && i < |choices| && t.score(hint, t.process(choices[i])) >= threshold
    && (forall j | 0 <= j < |choices| :: t.score(hint, t.process(choices[j])) <= t.score(hint, t.process(choices[i])))
    && (forall j | 0 <= j < i :: t.score(hint, t.process(choices[j])) < t.score(hint, t.process(choices[i])))
  }

  method ExtractOne(t: Text, hint: string, choices: seq<string>, threshold: int) returns (r: Option<nat>)
    ensures r == Best(t, hint, choices, threshold)
  {
    r := None;
    for n := 0 to |choices|
      invariant r == Best(t, hint, choices[..n], threshold)
    {
      assert choices[..n + 1][..n] == choices[..n];
      var score := t.score(hint, t.process(choices[n]));
      if score >= threshold && (r.None? || score > t.score(hint, t.process(choices[r.value]))) {
        r := Some(n);
      }
    }
    assert choices[..|choices|] == choices;
  }

  function Best(t: Text, hint: string, choices: seq<string>, threshold: int): (r: Option<nat>)
    ensures r.Some? ==> FirstBest(t, hint, choices, threshold, r.value)
    ensures r.None? ==> forall j | 0 <= j < |choices| :: t.score(hint, t.process(choices[j])) < threshold
  {
    if choices == [] then None
    else
      var n := |choices| - 1;
      var before, score := Best(t, hint, choices[..n], threshold), t.score(hint, t.process(choices[n]));
      if score >= threshold && (before.None? || score > t.score(hint, t.process(choices[before.value])))
      then Some(n) else before
  }

  function Resolved(t: Text, name: Option<string>, code: Code, items: seq<Distrito>, threshold: int)
    : (r: Option<Distrito>)
    ensures r.Some? ==> r.value in Of(items, code)
  {
    if name.None? || Blank(name.value) then None
    else
      var hit := Best(t, t.process(t.fold(name.value)), Names(t, Of(items, code)), threshold);
      if hit.Some? then Some(Of(items, code)[hit.value]) else None
  }

  predicate IsSeat(t: Text, d: Distrito) {
    t.seat(d.nome) == t.seat(d.municipioNome)
  }

  lemma OfHolds(items: seq<Distrito>, code: Code)
    ensures forall d :: d in Of(items, code) <==> d in items && d.ibge == code
  {
    var ds := Of(items, code);
    var at := OfKeepsOrder(items, code);
    forall d | d in items && d.ibge == code ensures d in ds {
      var i :| 0 <= i < |items| && items[i] == d;
      assert i in at;
      var j :| 0 <= j < |at| && at[j] == i;
      assert ds[j] == d;
    }
    forall j | 0 <= j < |ds| ensures ds[j] in items && ds[j].ibge == code {
      assert items[at[j]] == ds[j];
    }
  }

  lemma BestOfNames(t: Text, hint: string, ds: seq<Distrito>, threshold: int)
    ensures var hit := Best(t, hint, Names(t, ds), threshold);
      && (hit.None? ==> forall d | d in ds :: Score(t, hint, d) < threshold)
      && (hit.Some? ==>
            && hit.value < |ds| && Score(t, hint, ds[hit.value]) >= threshold
            && forall d | d in ds :: Score(t, hint, d) <= Score(t, hint, ds[hit.value]))
  {
    forall d | d in ds ensures exists j | 0 <= j < |ds| :: ds[j] == d && Names(t, ds)[j] == t.fold(d.nome) {
      var j :| 0 <= j < |ds| && ds[j] == d;
    }
  }

  /** A resolved distrito is one of the list, of the município asked for, and scores best there. */
  lemma ResolvedIsBest(t: Text, name: string, code: Code, items: seq<Distrito>, threshold: int)
    ensures var r, hint := Resolved(t, Some(name), code, items, threshold), t.process(t.fold(name));
      && (r.None? <==> Blank(name) || forall d | d in items && d.ibge == code :: Score(t, hint, d) < threshold)
      && (r.Some? ==>
            && r.value in items && r.value.ibge == code && Score(t, hint, r.value) >= threshold
            && forall d | d in items && d.ibge == code :: Score(t, hint, d) <= Score(t, hint, r.value))
  {
    OfHolds(items, code);
    BestOfNames(t, t.process(t.fold(name)), Of(items, code), threshold);
    hide Best, Names, Score, Of, Blank;
  }

  function Score(t: Text, hint: string, d: Distrito): int {
    t.score(hint, t.process(t.fold(d.nome)))
  }

  const SETTLEMENT_PREFIXES: seq<string> := ["vila de ", "vila do ", "vila da ", "distrito de ", "povoado de "]

  predicate StartsWith(s: string, p: string) {
    |s| >= |p| && s[..|p|] == p
  }

  /** The hint without the first settlement prefix it starts with. */
  function Stripped(hint: string, prefixes: seq<string>): string {
    if prefixes == [] then hint
    else if StartsWith(hint, prefixes[0]) then hint[|prefixes[0]|..]
    else Stripped(hint, prefixes[1..])
  }

  /** The words for a settlement before a name fall. */
  lemma SettlementFalls(name: string)
    ensures Stripped("vila de " + name, SETTLEMENT_PREFIXES) == name
    ensures Stripped("vila do " + name, SETTLEMENT_PREFIXES) == name
    ensures Stripped("vila da " + name, SETTLEMENT_PREFIXES) == name
    ensures Stripped("distrito de " + name, SETTLEMENT_PREFIXES) == name
    ensures Stripped("povoado de " + name, SETTLEMENT_PREFIXES) == name
  {
    forall i | 0 <= i < 5 ensures Stripped(SETTLEMENT_PREFIXES[i] + name, SETTLEMENT_PREFIXES) == name {
      PrefixFalls(name, i, 0);
      assert SETTLEMENT_PREFIXES[0..] == SETTLEMENT_PREFIXES;
    }
    assert SETTLEMENT_PREFIXES[0] == "vila de " && SETTLEMENT_PREFIXES[1] == "vila do ";
    assert SETTLEMENT_PREFIXES[2] == "vila da " && SETTLEMENT_PREFIXES[3] == "distrito de ";
    assert SETTLEMENT_PREFIXES[4] == "povoado de ";
  }

  lemma {:induction false} PrefixFalls(name: string, i: nat, k: nat)
    requires k <= i < 5
    ensures Stripped(SETTLEMENT_PREFIXES[i] + name, SETTLEMENT_PREFIXES[k..]) == name
    decreases i - k
  {
    var p := SETTLEMENT_PREFIXES[i];
    assert SETTLEMENT_PREFIXES[k..][0] == SETTLEMENT_PREFIXES[k];
    assert (p + name)[..|p|] == p && (p + name)[|p|..] == name;
    if k < i {
      OthersDiffer(name, i, k);
      PrefixFalls(name, i, k + 1);
      assert SETTLEMENT_PREFIXES[k..][1..] == SETTLEMENT_PREFIXES[k + 1..];
    }
  }

  lemma OthersDiffer(name: string, i: nat, k: nat)
    requires k < i < 5
    ensures !StartsWith(SETTLEMENT_PREFIXES[i] + name, SETTLEMENT_PREFIXES[k])
  {
    var p, q := SETTLEMENT_PREFIXES[i], SETTLEMENT_PREFIXES[k];
    assert (p + name)[0] == p[0] && (p + name)[6] == p[6];
    StartsAlike(p + name, q, 0);
    StartsAlike(p + name, q, 6);
  }

  lemma StartsAlike(s: string, q: string, j: nat)
    requires j < |q|
    ensures StartsWith(s, q) ==> |s| > j && s[j] == q[j]
  {
    if StartsWith(s, q) { assert s[j] == s[..|q|][j]; }
  }

  method StripPrefix(hint: string) returns (r: string)
    ensures r == Stripped(hint, SETTLEMENT_PREFIXES)
  {
    r := hint;
    for i := 0 to |SETTLEMENT_PREFIXES|
      invariant r == hint && Stripped(hint, SETTLEMENT_PREFIXES) == Stripped(hint, SETTLEMENT_PREFIXES[i..])
    {
      assert SETTLEMENT_PREFIXES[i..][0] == SETTLEMENT_PREFIXES[i];
      assert SETTLEMENT_PREFIXES[i..][1..] == SETTLEMENT_PREFIXES[i + 1..];
      if StartsWith(hint, SETTLEMENT_PREFIXES[i]) {
        return hint[|SETTLEMENT_PREFIXES[i]|..];
      }
    }
  }

  /** One of the best-scored distritos of the state, scoring enough. */
  ghost predicate TopInUf(t: Text, hint: string, uf: string, items: seq<Distrito>, threshold: int, d: Distrito) {
    && d in items && d.uf == uf && Score(t, hint, d) >= threshold
    && forall e | e in items && e.uf == uf :: Score(t, hint, e) <= Score(t, hint, d)
  }

  /** resolve_distrito_in_uf: a best-scored distrito of the state, unless best scores fall in two
      municípios; it never guesses, and it gives up only then, or when nothing scores enough. */
  method ResolveDistritoInUf(t: Text, name: Option<string>, uf: string, distritos: DistritoList, threshold: int)
    returns (r: Option<Distrito>)
    ensures name.None? || Blank(name.value) ==> r.None?
    ensures name.Some? && !Blank(name.value) ==>
      var hint, items := Stripped(t.process(t.fold(name.value)), SETTLEMENT_PREFIXES), distritos.items;
      && (r.Some? ==> TopInUf(t, hint, uf, items, threshold, r.value))
      && (r.Some? <==>
            ((exists d | d in items :: TopInUf(t, hint, uf, items, threshold, d)) &&
             (forall d, e | TopInUf(t, hint, uf, items, threshold, d) && TopInUf(t, hint, uf, items, threshold, e) ::
                d.ibge == e.ibge)))
  {
    if name.None? || Blank(name.value) { return None; }
    var hint := StripPrefix(t.process(t.fold(name.value)));
    var items := distritos.items;
    var top, best := [], threshold;
    for n := 0 to |items|
      invariant best >= threshold
      invariant forall d :: d in top <==> d in items[..n] && d.uf == uf && Score(t, hint, d) == best
      invariant forall d | d in items[..n] && d.uf == uf :: Score(t, hint, d) <= best
      invariant top == [] ==> best == threshold
    {
      assert items[..n + 1] == items[..n] + [items[n]];
      if items[n].uf == uf && Score(t, hint, items[n]) >= best {
        top := if Score(t, hint, items[n]) > best then [items[n]] else top + [items[n]];
        best := Score(t, hint, items[n]);
      }
    }
    assert items[..|items|] == items;
    if top != [] { assert top[0] in top; }
    forall d ensures d in top <==> TopInUf(t, hint, uf, items, threshold, d) {}
    if top == [] { return None; }
    for k := 0 to |top|
      invariant forall j | 0 <= j < k :: top[j].ibge == top[0].ibge
    {
      if top[k].ibge != top[0].ibge { return None; }
    }
    return Some(top[0]);
  }
}
