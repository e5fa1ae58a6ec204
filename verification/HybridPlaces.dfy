/**
 Google picks the place, Apify brings its fields: a lot is prefetched in a few batched Apify
 runs, and search and place_details then read the caches. Google and Apify are whatever replies
 they give, call by call.
 */
module HybridPlaces {
  import opened Common

  const PICK_CANDIDATES: nat := 3
  const BIAS_MIN: int := 5_000       // metres
  const BIAS_MAX: int := 50_000
  const APIFY_RUN_MAX_QUERIES: nat := 50

  datatype Point = Point(lat: int, lng: int)

  /** What a name lookup is given; `radius` in metres. */
  datatype Spot = Spot(nome: string, municipio: string, uf: string, at: Point, radius: int)

  datatype Key = Key(nome: string, municipio: string, uf: string)

  /** The geo half; `ibge` is the one field that depends on the UF asked with. */
  datatype Essentials = Essentials(
    placeId: string, address: string, types: seq<string>, location: Option<Point>, ufShort: string,
    distrito: string, ibge: string)

  datatype Item = Item(
    title: string, address: string, location: Option<Point>, permanentlyClosed: bool, temporarilyClosed: bool,
    fields: string, reviews: seq<string>)

  datatype Details = Details(
    placeId: string, name: string, address: string, status: string, location: Option<Point>,
    distrito: string, types: seq<string>, fields: string, reviews: seq<string>)

  datatype SearchHit = SearchHit(essentials: Essentials, name: string, location: Option<Point>)

  /** One item of a lot: a place id, or ("" for the id) a spot to pick one for. */
  datatype Want = Want(placeId: string, spot: Spot)

  datatype Error = Wall | BatchFailed | NoResult | Transient
  datatype Reply<+T> = Ok(value: T) | Fails(error: Error)

  /** Google's and Apify's reply to the n-th call; `km` and the text folding are taken as given. */
  datatype Services = Services(
    ids: (nat, string, Point, int) -> Reply<seq<string>>,
    essentials: (nat, string, string) -> Reply<Essentials>,
    lookup: (nat, seq<string>, nat) -> Reply<map<string, Item>>,
    apifyBudget: (nat, nat) -> Reply<bool>,
    googleBudget: (nat, nat) -> Reply<bool>,
    distance: (Point, Point) -> int,
    fold: string -> string,
    upper: string -> string)

  /** An Apify run: what it was asked for. */
  datatype RunLog = RunLog(queries: seq<string>, reviews: nat)

  predicate WordChar(c: char) {
    'a' <= c <= 'z' || 'A' <= c <= 'Z' || '0' <= c <= '9' || c == '_' || c == '-'
  }

  /** The ids the crawler takes. */
  predicate Crawlable(id: string) {
    && |id| == 27 && (id[..4] == "ChIJ" || id[..4] == "GhIJ")
    && forall i | 4 <= i < 27 :: WordChar(id[i])
  }

  function QueryOf(placeId: string): (q: string) {
    "place_id:" + placeId
  }

  function KeyOf(sv: Services, s: Spot): Key {
    Key(sv.fold(s.nome), sv.fold(s.municipio), sv.upper(s.uf))
  }

  function PickQuery(s: Spot): string {
    if s.municipio != "" then s.nome + ", " + s.municipio + " - " + s.uf else s.nome + " - " + s.uf
  }

  function Bias(s: Spot): int {
    Min(Max(s.radius, BIAS_MIN), BIAS_MAX)
  }

  /** Not a geographic entity, in the state, within the radius. */
  predicate Fits(sv: Services, s: Spot, e: Essentials) {
    && "political" !in e.types && e.location.Some?
    && !(|sv.upper(e.ufShort)| == 2 && sv.upper(e.ufShort) != sv.upper(s.uf))
    && sv.distance(s.at, e.location.value) <= s.radius
  }

  function Status(i: Item): string {
    if i.permanentlyClosed then "CLOSED_PERMANENTLY"
    else if i.temporarilyClosed then "CLOSED_TEMPORARILY" else "OPERATIONAL"
  }

  function ToPlaceDetails(i: Item, e: Essentials, includeReviews: bool): Details {
    Details(e.placeId, i.title, if e.address != "" then e.address else i.address, Status(i),
            if e.location.Some? then e.location else i.location, e.distrito, e.types, i.fields,
            if includeReviews then i.reviews else [])
  }

  /** Details put together from some item and some essentials. */
  ghost predicate FromHalves(d: Details, reviews: bool) {
    exists i: Item, e: Essentials :: d == ToPlaceDetails(i, e, reviews)
  }

  function ToSearchHit(i: Item, e: Essentials): SearchHit {
    SearchHit(e, i.title, if e.location.Some? then e.location else i.location)
  }

  // ---- A world where nothing fails and nothing changes --------------------------------------

  datatype World = World(
    ids: (string, Point, int) -> seq<string>,
    essentials: (string, string) -> Essentials,
    item: (string, nat) -> Option<Item>,
    spotOf: Key -> Spot)                     // the one spot asked for under a key

  function Items(d: World, qs: seq<string>, reviews: nat): map<string, Item> {
    map q | q in qs && d.item(q, reviews).Some? :: d.item(q, reviews).value
  }

  /** Every call answers, always the same, whatever else the run carries. */
  ghost predicate Steady(sv: Services, d: World) {
    && (forall n, q, p, b :: sv.ids(n, q, p, b) == Ok(d.ids(q, p, b)))
    && (forall n, id, uf :: sv.essentials(n, id, uf) == Ok(d.essentials(id, uf)))
    && (forall n, qs, r :: sv.lookup(n, qs, r) == Ok(Items(d, qs, r)))
    && (forall n, k :: sv.apifyBudget(n, k).Ok?)
    && (forall n, k :: sv.googleBudget(n, k).Ok?)
  }

  /** Google keeps its ids and derives only the município code from the UF; Apify's other fields
      do not depend on how many reviews were asked for. */
  ghost predicate Plain(d: World) {
    && (forall id, uf :: d.essentials(id, uf).placeId == id)
    && (forall id, uf :: d.essentials(id, uf).(ibge := "") == d.essentials(id, "").(ibge := ""))
    && (forall q, r, r' :: SamePlace(d.item(q, r), d.item(q, r')))
  }

  predicate SamePlace(a: Option<Item>, b: Option<Item>) {
    if a.None? || b.None? then a.None? && b.None? else a.value.(reviews := []) == b.value.(reviews := [])
  }

  function FirstFit(sv: Services, d: World, s: Spot, ids: seq<string>): Option<Essentials> {
    if ids == [] then None
    else if Crawlable(ids[0]) && Fits(sv, s, d.essentials(ids[0], s.uf)) then Some(d.essentials(ids[0], s.uf))
    else FirstFit(sv, d, s, ids[1..])
  }

  function Top(ids: seq<string>): seq<string> {
    if |ids| <= PICK_CANDIDATES then ids else ids[..PICK_CANDIDATES]
  }

  function PurePick(sv: Services, d: World, s: Spot): Option<Essentials> {
    FirstFit(sv, d, s, Top(d.ids(PickQuery(s), s.at, Bias(s))))
  }

  function Asked(reviews: bool, maxReviews: nat): nat {
    if reviews then maxReviews else 0
  }

  /** Search with nothing cached: the pick, named by Apify. */
  function PureSearch(sv: Services, d: World, maxReviews: nat, s: Spot, reviews: bool): Option<SearchHit> {
    var pick := PurePick(sv, d, s);
    if pick.None? || !Crawlable(pick.value.placeId) then None
    else
      var item := d.item(QueryOf(pick.value.placeId), Asked(reviews, maxReviews));
      if item.None? then None else Some(ToSearchHit(item.value, pick.value))
  }

  /** Details with nothing cached. */
  function PureDetails(d: World, maxReviews: nat, id: string, reviews: bool): Reply<Details> {
    if !Crawlable(id) then Fails(NoResult)
    else
      var item := d.item(QueryOf(id), Asked(reviews, maxReviews));
      if item.None? then Fails(NoResult) else Ok(ToPlaceDetails(item.value, d.essentials(id, ""), reviews))
  }

  lemma {:induction false} FitIsEssentials(sv: Services, d: World, s: Spot, ids: seq<string>)
    requires Plain(d) && FirstFit(sv, d, s, ids).Some?
    ensures var e := FirstFit(sv, d, s, ids).value;
      Crawlable(e.placeId) && e.(ibge := "") == d.essentials(e.placeId, "").(ibge := "")
  {
    if !(Crawlable(ids[0]) && Fits(sv, s, d.essentials(ids[0], s.uf))) {
      FitIsEssentials(sv, d, s, ids[1..]);
    } else {
      assert d.essentials(ids[0], s.uf).placeId == ids[0];
    }
  }

  /** What a search files for the details call is what details would answer by themselves, also
      when the item came with reviews the caller does not want. */
  lemma PairAgrees(sv: Services, d: World, maxReviews: nat, s: Spot, item: Option<Item>, reviews: bool, e: Essentials)
    requires Plain(d) && PurePick(sv, d, s) == Some(e)
    requires var q := QueryOf(e.placeId);
      item == d.item(q, Asked(reviews, maxReviews)) || item == d.item(q, Asked(true, maxReviews))
    requires reviews ==> item == d.item(QueryOf(e.placeId), Asked(true, maxReviews))
    ensures PureSearch(sv, d, maxReviews, s, reviews) == if item.Some? then Some(ToSearchHit(item.value, e)) else None
    ensures PureDetails(d, maxReviews, e.placeId, reviews) ==
      if item.Some? then Ok(ToPlaceDetails(item.value, e, reviews)) else Fails(NoResult)
  {
    FitIsEssentials(sv, d, s, Top(d.ids(PickQuery(s), s.at, Bias(s))));
    var q := QueryOf(e.placeId);
    assert SamePlace(item, d.item(q, Asked(reviews, maxReviews)));
  }

  /** One record served with nothing cached. */
  function PureServe(sv: Services, d: World, maxReviews: nat, w: Want, reviews: bool): Reply<Option<Details>> {
    if w.placeId != "" then
      match PureDetails(d, maxReviews, w.placeId, reviews)
      case Ok(details) => Ok(Some(details))
      case Fails(error) => Fails(error)
    else
      var hit := PureSearch(sv, d, maxReviews, w.spot, reviews);
      if hit.None? then Ok(None)
      else
        match PureDetails(d, maxReviews, hit.value.essentials.placeId, reviews)
        case Ok(details) => Ok(Some(details))
        case Fails(error) => Fails(error)
  }

  // ---- Runs --------------------------------------------------------------------------------

  /** In how many of the runs a query was sent. */
  function Sent(runs: seq<RunLog>, q: string): nat {
    if runs == [] then 0 else Sent(runs[..|runs| - 1], q) + if q in runs[|runs| - 1].queries then 1 else 0
  }

  lemma {:induction false} SentAppend(a: seq<RunLog>, b: seq<RunLog>, q: string)
    ensures Sent(a + b, q) == Sent(a, q) + Sent(b, q)
    decreases |b|
  {
    if b == [] {
      assert a + b == a;
    } else {
      assert (a + b)[..|a + b| - 1] == a + b[..|b| - 1];
      SentAppend(a, b[..|b| - 1], q);
    }
  }

  /** The runs of one lot so far: small enough, and no query in more than two of them. */
  ghost predicate Frugal(runs: seq<RunLog>) {
    && (forall i | 0 <= i < |runs| :: 0 < |runs[i].queries| <= APIFY_RUN_MAX_QUERIES)
    && (forall q :: Sent(runs, q) <= 2)
  }

  lemma NothingSentYet()
    ensures Frugal([]) && forall q :: Sent([], q) == 0
  {
  }

  lemma FrugalAppend(a: seq<RunLog>, b: seq<RunLog>, chunk: seq<string>)
    requires Frugal(a) && Frugal(b)
    requires forall q | q in chunk :: Sent(a, q) == 0
    requires forall q | q !in chunk :: Sent(b, q) == 0
    ensures Frugal(a + b) && forall q | q !in chunk :: Sent(a + b, q) == Sent(a, q)
  {
    forall q ensures Sent(a + b, q) == Sent(a, q) + Sent(b, q) {
      SentAppend(a, b, q);
    }
    forall q ensures Sent(a + b, q) <= 2 {
      if q in chunk { assert Sent(a, q) == 0; } else { assert Sent(b, q) == 0; }
    }
  }

  predicate NoRepeats(qs: seq<string>) {
    forall i, j | 0 <= i < j < |qs| :: qs[i] != qs[j]
  }

  function Got(answer: map<string, Item>, q: string): Option<Item> {
    if q in answer then Some(answer[q]) else None
  }

  predicate AnyIn(qs: seq<string>, failed: set<string>) {
    exists q :: q in qs && q in failed
  }

  type Found = map<(string, bool), Option<Item>>

  /** The first n queries of a lot are served or marked failed, and lotFailed tells of a mark. */
  predicate Served(qs: seq<string>, n: nat, found: Found, failed: set<string>, lotFailed: bool)
    requires n <= |qs|
  {
    && (forall q | q in qs[..n] :: (q, true) in found <==> q !in failed)
    && (lotFailed <==> AnyIn(qs[..n], failed))
  }

  /** A chunk changes nothing of the others. */
  ghost predicate Beside(chunk: seq<string>, found: Found, failed: set<string>, found': Found, failed': set<string>) {
    forall q | q !in chunk :: ((q, true) in found <==> (q, true) in found') && (q in failed <==> q in failed')
  }

  lemma ServedBeside(qs: seq<string>, n: nat, end: nat, found: Found, failed: set<string>, lotFailed: bool,
                     found': Found, failed': set<string>)
    requires n <= end <= |qs| && Served(qs, n, found, failed, lotFailed)
    requires forall q | q in qs[n..end] :: q !in qs[..n]
    requires Beside(qs[n..end], found, failed, found', failed')
    ensures Served(qs, n, found', failed', lotFailed)
  {
  }

  lemma ServedFurther(qs: seq<string>, n: nat, end: nat, found: Found, failed: set<string>, lotFailed: bool)
    requires n <= end <= |qs| && Served(qs, n, found, failed, lotFailed)
    requires forall q | q in qs[n..end] :: (q, true) in found <==> q !in failed
    ensures Served(qs, end, found, failed, lotFailed || AnyIn(qs[n..end], failed))
  {
    assert qs[..end] == qs[..n] + qs[n..end];
  }

  lemma ServedAll(qs: seq<string>, found: Found, failed: set<string>, lotFailed: bool)
    requires Served(qs, |qs|, found, failed, lotFailed)
    ensures forall q | q in qs :: (q, true) in found <==> q !in failed
    ensures !lotFailed ==> forall q | q in qs :: (q, true) in found
  {
    assert qs[..|qs|] == qs;
  }

  /** Nothing cached is lost, and in a steady world what is new is true and nothing fails. */
  ghost predicate Kept(sv: Services, maxReviews: nat, had: Found, marks: set<string>,
                       found: Found, failed: set<string>)
  {
    && (forall q, r | (q, r) in had :: (q, r) in found && found[(q, r)] == had[(q, r)])
    && forall d | Steady(sv, d) ::
         && (marks == {} ==> failed == {})
         && forall q, r | (q, r) in found && (q, r) !in had :: r && found[(q, r)] == d.item(q, maxReviews)
  }

  lemma KeptFurther(sv: Services, maxReviews: nat, a: Found, x: set<string>, b: Found, y: set<string>,
                    c: Found, z: set<string>)
    requires Kept(sv, maxReviews, a, x, b, y) && Kept(sv, maxReviews, b, y, c, z)
    ensures Kept(sv, maxReviews, a, x, c, z)
  {
    hide Steady;
  }

  /** A chunk's runs after the others': still few, and none with a query of the chunks to come. */
  lemma LogFurther(qs: seq<string>, start: nat, end: nat, log: seq<RunLog>, before: seq<RunLog>, after: seq<RunLog>)
    requires start <= end <= |qs| && NoRepeats(qs) && |log| <= |before| <= |after|
    requires before[..|log|] == log && after[..|before|] == before
    requires Frugal(before[|log|..]) && Frugal(after[|before|..])
    requires forall q | q in qs[start..] :: Sent(before[|log|..], q) == 0
    requires forall q | q !in qs[start..end] :: Sent(after[|before|..], q) == 0
    ensures after[..|log|] == log && Frugal(after[|log|..])
    ensures forall q | q in qs[end..] :: Sent(after[|log|..], q) == 0
  {
    CutChunk(qs, start, end);
    assert after[|log|..] == before[|log|..] + after[|before|..];
    assert after[..|log|] == after[..|before|][..|log|];
    FrugalAppend(before[|log|..], after[|before|..], qs[start..end]);
    hide Frugal, Sent;
  }

  lemma CutChunk(qs: seq<string>, start: nat, end: nat)
    requires start <= end <= |qs| && NoRepeats(qs)
    ensures NoRepeats(qs[start..end])
    ensures forall q :: q in qs[start..] <==> q in qs[start..end] || q in qs[end..]
    ensures forall q :: q in qs[..end] <==> q in qs[..start] || q in qs[start..end]
    ensures forall q | q in qs[start..end] :: q !in qs[..start] && q !in qs[end..]
  {
    assert qs[start..] == qs[start..end] + qs[end..] && qs[..end] == qs[..start] + qs[start..end];
  }

  class Client {
    const sv: Services
    const maxReviews: nat
    var found: map<(string, bool), Option<Item>>
    var pairs: map<(string, bool), (Item, Essentials)>
    var picked: map<Key, Option<Essentials>>
    var pickFailed: set<Key>
    var failed: set<string>
    var lotFailed: bool
    var calls: nat
    var runs: seq<RunLog>

    constructor (sv: Services, maxReviews: nat)
      ensures this.sv == sv && this.maxReviews == maxReviews && Sound() && runs == []
      ensures forall d :: Plain(d) ==> Coherent(d)
    {
      this.sv, this.maxReviews := sv, maxReviews;
      found, pairs, picked, pickFailed, failed, lotFailed, calls, runs := map[], map[], map[], {}, {}, false, 0, [];
    }

    /** No query is both found and failed, no key both picked and failed. */
    ghost predicate Sound()
      reads this`found, this`failed, this`picked, this`pickFailed
    {
      && (forall q | q in failed :: (q, true) !in found)
      && (forall k | k in pickFailed :: k !in picked)
    }

    /** The caches say what the world would, and nothing has failed. */
    ghost predicate Coherent(d: World)
      reads this`found, this`pairs, this`picked, this`pickFailed, this`failed, this`lotFailed
    {
      && failed == {} && pickFailed == {} && !lotFailed
      && (forall q, r | (q, r) in found :: found[(q, r)] == d.item(q, Asked(r, maxReviews)))
      && (forall k | k in picked :: picked[k] == PurePick(sv, d, d.spotOf(k)))
      && (forall id, r | (id, r) in pairs ::
            Ok(ToPlaceDetails(pairs[(id, r)].0, pairs[(id, r)].1, r)) == PureDetails(d, maxReviews, id, r))
    }

    /** A query whose answer is cached. */
    predicate Cached(q: string, reviews: bool)
      reads this`found
    {
      (q, reviews) in found || (q, true) in found
    }

    /** An item of a lot that Apify has been asked about, as far as it can be. */
    predicate Covered(w: Want)
      reads this`found, this`picked
    {
      if w.placeId != "" then !Crawlable(w.placeId) || (QueryOf(w.placeId), true) in found
      else
        var k := KeyOf(sv, w.spot);
        k in picked && (picked[k].None? || !Crawlable(picked[k].value.placeId) ||
                        (QueryOf(picked[k].value.placeId), true) in found)
    }

    /** Covered, or a spot whose pick failed. */
    predicate Settled(w: Want)
      reads this`found, this`picked, this`pickFailed
    {
      Covered(w) || (w.placeId == "" && KeyOf(sv, w.spot) in pickFailed)
    }

    // ---- The pick ---------------------------------------------------------------------------

    method Pick(s: Spot) returns (r: Reply<Option<Essentials>>)
      modifies this`calls
      ensures r.Ok? && r.value.Some? ==> Fits(sv, s, r.value.value)
      ensures forall d | Steady(sv, d) :: r == Ok(PurePick(sv, d, s))
    {
      calls := calls + 1;
      var reply := sv.ids(calls, PickQuery(s), s.at, Bias(s));
      if reply.Fails? { return Fails(reply.error); }
      var ids, n := Top(reply.value), 0;
      while n < |ids|
        invariant 0 <= n <= |ids|
        invariant forall d | Steady(sv, d) :: PurePick(sv, d, s) == FirstFit(sv, d, s, ids[n..])
      {
        assert ids[n..][0] == ids[n] && ids[n..][1..] == ids[n + 1..];
        if Crawlable(ids[n]) {
          calls := calls + 1;
          var ess := sv.essentials(calls, ids[n], s.uf);
          if ess.Fails? { return Fails(ess.error); }
          if Fits(sv, s, ess.value) { return Ok(Some(ess.value)); }
        }
        n := n + 1;
      }
      return Ok(None);
    }

    // ---- One Apify run ----------------------------------------------------------------------

    method Lookup(qs: seq<string>, reviews: nat) returns (r: Reply<map<string, Item>>)
      modifies this`calls, this`runs
      ensures runs == old(runs) + [RunLog(qs, reviews)]
      ensures forall d | Steady(sv, d) :: r == Ok(Items(d, qs, reviews))
    {
      calls, runs := calls + 1, runs + [RunLog(qs, reviews)];
      r := sv.lookup(calls, qs, reviews);
    }

    /** prefetch's own lookup: an answer clears the queries' failures, a failure that is not a
        wall marks them. */
    method BatchLookup(qs: seq<string>) returns (r: Reply<map<string, Item>>)
      modifies this`calls, this`runs, this`failed
      ensures runs == old(runs) + [RunLog(qs, maxReviews)]
      ensures forall q :: q in failed <==> if q in qs && (r.Ok? || r.error != Wall) then r.Fails? else q in old(failed)
      ensures forall d | Steady(sv, d) :: r == Ok(Items(d, qs, maxReviews))
    {
      r := Lookup(qs, maxReviews);
      if r.Ok? {
        failed := failed - (set q | q in qs);
      } else if r.error != Wall {
        failed := failed + (set q | q in qs);
      }
    }

    /** Files the answers, and unless this is the last try leaves the misses for one more run. */
    method File(qs: seq<string>, answer: map<string, Item>, last: bool) returns (missed: seq<string>)
      modifies this`found
      ensures forall q :: q in missed <==> q in qs && !last && q !in answer
      ensures |missed| <= |qs| && (NoRepeats(qs) ==> NoRepeats(missed))
      ensures forall q, r :: (q, r) in found <==> (q, r) in old(found) || (r && q in qs && q !in missed)
      ensures forall q, r | (q, r) in found ::
        found[(q, r)] == if r && q in qs && q !in missed then Got(answer, q) else old(found)[(q, r)]
    {
      missed := [];
      var n := 0;
      while n < |qs|
        invariant 0 <= n <= |qs| && |missed| <= n
        invariant forall q :: q in missed <==> q in qs[..n] && !last && q !in answer
        invariant NoRepeats(qs) ==> NoRepeats(missed)
        invariant forall q, r :: (q, r) in found <==> (q, r) in old(found) || (r && q in qs[..n] && q !in missed)
        invariant forall q, r | (q, r) in found ::
          found[(q, r)] == if r && q in qs[..n] && q !in missed then Got(answer, q) else old(found)[(q, r)]
      {
        assert qs[..n + 1] == qs[..n] + [qs[n]];
        if !last && qs[n] !in answer {
          missed := missed + [qs[n]];
        } else {
          found := found[(qs[n], true) := Got(answer, qs[n])];
        }
        n := n + 1;
      }
      assert qs[..n] == qs;
    }

    /** A chunk of the lot: one run, and one more for its misses. */
    method RunChunk(chunk: seq<string>) returns (e: Option<Error>)
      requires Sound() && NoRepeats(chunk) && 0 < |chunk| <= APIFY_RUN_MAX_QUERIES
      requires forall q | q in chunk :: (q, true) !in found
      modifies this`calls, this`runs, this`failed, this`found
      ensures Sound()
      ensures runs[..Min(|old(runs)|, |runs|)] == old(runs) && Frugal(runs[|old(runs)|..])
      ensures forall q | q !in chunk :: Sent(runs[|old(runs)|..], q) == 0
      ensures e.None? ==> forall q | q in chunk :: (q, true) in found && q !in failed
      ensures |runs| > |old(runs)|
      ensures e != Some(Wall) ==> forall q | q in chunk :: (q, true) in found <==> q !in failed
      ensures e != Some(Wall) ==> (e.Some? <==> AnyIn(chunk, failed))
      ensures forall q, r | !r || q !in chunk :: (q, r) in found <==> (q, r) in old(found)
      ensures forall q, r | (q, r) in found && (!r || q !in chunk) :: found[(q, r)] == old(found)[(q, r)]
      ensures forall q | q !in chunk :: q in failed <==> q in old(failed)
      ensures Beside(chunk, old(found), old(failed), found, failed)
      ensures forall d | Steady(sv, d) ::
        e.None? && forall q | q in chunk :: (q, true) in found && found[(q, true)] == d.item(q, maxReviews)
    {
      hide Frugal, Sent, Steady, NoRepeats, Items, Got;
      ghost var one, start := [RunLog(chunk, maxReviews)], |runs|;
      OneRunIsFrugal(one, chunk);
      var first := BatchLookup(chunk);
      assert runs[start..] == one;
      if first.Fails? {
        assert chunk[0] in chunk;
        return Some(first.error);
      }
      var missed := File(chunk, first.value, false);
      forall d, q | Steady(sv, d) && q in chunk ensures Got(first.value, q) == d.item(q, maxReviews) {
        ItemsGot(d, chunk, maxReviews, q);
      }
      if missed == [] { return None; }
      ghost var two := [RunLog(missed, maxReviews)];
      TwoRunsAreFrugal(one, two, chunk, missed);
      var second := BatchLookup(missed);
      assert runs[start..] == one + two;
      if second.Fails? {
        assert missed[0] in missed;
        return Some(second.error);
      }
      var none := File(missed, second.value, true);
      forall d, q | Steady(sv, d) && q in missed ensures Got(second.value, q) == d.item(q, maxReviews) {
        ItemsGot(d, missed, maxReviews, q);
      }
      return None;
    }

    /** The lot stopped at the wall of the chunk that starts at n: the chunks before it were served
        or marked failed, lotFailed says whether one of them was, and none after it was sent. */
    predicate WallAt(queries: seq<string>, n: nat)
      reads this`found, this`failed, this`lotFailed
    {
      && n < |queries| && n % APIFY_RUN_MAX_QUERIES == 0 && Served(queries, n, found, failed, lotFailed)
      && forall q | q in queries[Min(n + APIFY_RUN_MAX_QUERIES, |queries|)..] :: (q, true) !in found
    }

    /** Where a lot stands after its first n queries, from the caches and the log it began with. */
    ghost predicate InLot(queries: seq<string>, n: nat, had: Found, marks: set<string>, log: seq<RunLog>)
      reads this`found, this`failed, this`lotFailed, this`runs
    {
      && n <= |queries| && |log| <= |runs| && runs[..|log|] == log && Frugal(runs[|log|..])
      && Served(queries, n, found, failed, lotFailed)
      && (forall q | q in queries[n..] :: (q, true) !in found && Sent(runs[|log|..], q) == 0)
      && Kept(sv, maxReviews, had, marks, found, failed)
    }

    /** The next chunk of a lot. */
    method NextChunk(queries: seq<string>, start: nat,
                     ghost had: Found, ghost marks: set<string>, ghost log: seq<RunLog>)
      returns (e: Option<Error>)
      requires Sound() && NoRepeats(queries) && start < |queries| && start % APIFY_RUN_MAX_QUERIES == 0
      requires InLot(queries, start, had, marks, log)
      modifies this`calls, this`runs, this`failed, this`found, this`lotFailed
      ensures Sound() && |runs| > |log| && runs[..|log|] == log && Frugal(runs[|log|..])
      ensures Kept(sv, maxReviews, had, marks, found, failed)
      ensures e == Some(Wall) ==> WallAt(queries, start)
      ensures e != Some(Wall) ==>
        && InLot(queries, Min(start + APIFY_RUN_MAX_QUERIES, |queries|), had, marks, log)
        && lotFailed == (old(lotFailed) || e.Some?)
      ensures forall d | Steady(sv, d) :: e.None?
    {
      var end := Min(start + APIFY_RUN_MAX_QUERIES, |queries|);
      var chunk := queries[start..end];
      CutChunk(queries, start, end);
      ghost var before, served, failing := runs, found, failed;
      e := RunChunk(chunk);
      hide Sent, Frugal, Steady, NoRepeats, Sound, AnyIn, Served, Beside, Kept;
      assert Kept(sv, maxReviews, served, failing, found, failed);
      ServedBeside(queries, start, end, served, failing, lotFailed, found, failed);
      LogFurther(queries, start, end, log, before, runs);
      KeptFurther(sv, maxReviews, had, marks, served, failing, found, failed);
      if e == Some(Wall) { return; }
      ServedFurther(queries, start, end, found, failed, lotFailed);
      if e.Some? { lotFailed := true; }
    }

    /** Every chunk goes, one after another, whatever happens to the others; a wall stops the lot. */
    method RunLot(queries: seq<string>) returns (e: Option<Error>)
      requires Sound() && NoRepeats(queries)
      requires forall q | q in queries :: (q, true) !in found
      modifies this`calls, this`runs, this`failed, this`found, this`lotFailed
      ensures Sound()
      ensures runs[..Min(|old(runs)|, |runs|)] == old(runs) && Frugal(runs[|old(runs)|..])
      ensures e.Some? ==> |runs| > |old(runs)| && (e.value != Wall ==> lotFailed)
      ensures e.None? ==> !lotFailed && forall q | q in queries :: (q, true) in found
      ensures e != Some(Wall) ==> forall q | q in queries :: (q, true) in found <==> q !in failed
      ensures e == Some(Wall) ==> exists n: nat :: WallAt(queries, n)
      ensures forall q, r | (q, r) in old(found) :: (q, r) in found && found[(q, r)] == old(found)[(q, r)]
      ensures forall d | Steady(sv, d) ::
        && e.None? && (old(failed) == {} ==> failed == {})
        && forall q, r | (q, r) in found && (q, r) !in old(found) :: r && found[(q, r)] == d.item(q, maxReviews)
    {
      NothingSentYet();
      ghost var had, marks, log := found, failed, runs;
      assert runs[|log|..] == [] && queries[..0] == [];
      lotFailed, e := false, None;
      var start := 0;
      assert Kept(sv, maxReviews, had, marks, found, failed);
      assert InLot(queries, 0, had, marks, log);
      hide InLot, Sent, Frugal, Steady, NoRepeats, Sound, AnyIn, Served, WallAt;
      while start < |queries|
        invariant start <= |queries| && (start % APIFY_RUN_MAX_QUERIES == 0 || start == |queries|)
        invariant Sound() && InLot(queries, start, had, marks, log)
        invariant (e.Some? <==> lotFailed) && e != Some(Wall) && (e.Some? ==> |runs| > |log|)
        invariant forall d | Steady(sv, d) :: e.None?
      {
        var chunkError := NextChunk(queries, start, had, marks, log);
        if chunkError == Some(Wall) { return chunkError; }
        if chunkError.Some? && e.None? { e := chunkError; }
        start := Min(start + APIFY_RUN_MAX_QUERIES, |queries|);
      }
      LotIsServed(queries, had, marks, log);
    }

    lemma LotIsServed(queries: seq<string>, had: Found, marks: set<string>, log: seq<RunLog>)
      requires InLot(queries, |queries|, had, marks, log)
      ensures |log| <= |runs| && runs[..|log|] == log && Frugal(runs[|log|..])
      ensures Kept(sv, maxReviews, had, marks, found, failed)
      ensures forall q | q in queries :: (q, true) in found <==> q !in failed
      ensures !lotFailed ==> forall q | q in queries :: (q, true) in found
    {
      ServedAll(queries, found, failed, lotFailed);
      hide Frugal, Sent, Served, Steady;
    }

    // ---- prefetch ---------------------------------------------------------------------------

    /** The id a lot's item stands for, "" if it has none (yet). */
    function Target(w: Want): string
      reads this`picked
    {
      if w.placeId != "" then w.placeId
      else
        var k := KeyOf(sv, w.spot);
        if k in picked && picked[k].Some? then picked[k].value.placeId else ""
    }

    /** A spot with no pick yet gets one, or its key is marked; a wall does neither. */
    method PickOnce(s: Spot) returns (wall: bool)
      requires Sound() && KeyOf(sv, s) !in picked
      modifies this`calls, this`picked, this`pickFailed
      ensures Sound()
      ensures wall ==> picked == old(picked) && pickFailed == old(pickFailed)
      ensures !wall ==> if KeyOf(sv, s) in picked
        then picked == old(picked)[KeyOf(sv, s) := picked[KeyOf(sv, s)]] && pickFailed <= old(pickFailed)
        else picked == old(picked) && pickFailed == old(pickFailed) + {KeyOf(sv, s)}
      ensures forall k | k in old(pickFailed) && k != KeyOf(sv, s) :: k in pickFailed
      ensures forall d | Steady(sv, d) ::
        !wall && KeyOf(sv, s) in picked && picked[KeyOf(sv, s)] == PurePick(sv, d, s)
    {
      var key := KeyOf(sv, s);
      var pick := Pick(s);
      if pick.Ok? {
        picked, pickFailed := picked[key := pick.value], pickFailed - {key};
      } else if pick.error == Wall {
        return true;
      } else {
        pickFailed := pickFailed + {key};
      }
      return false;
    }

    /** The picks of a lot, and the queries it still has to send. */
    method Collect(items: seq<Want>) returns (e: Option<Error>, queries: seq<string>)
      requires Sound()
      modifies this`calls, this`picked, this`pickFailed
      ensures Sound() && NoRepeats(queries) && (e.None? || e == Some(Wall))
      ensures forall q | q in queries :: (q, true) !in found
      ensures e.None? ==> forall w | w in items && Crawlable(Target(w)) ::
        QueryOf(Target(w)) in queries || (QueryOf(Target(w)), true) in found
      ensures e.None? ==> forall w | w in items && w.placeId == "" ::
        KeyOf(sv, w.spot) in picked || KeyOf(sv, w.spot) in pickFailed
      ensures forall k | k in old(picked) :: k in picked && picked[k] == old(picked)[k]
      ensures forall d | Steady(sv, d) && Refers(sv, d, items) ::
        && e.None? && pickFailed <= old(pickFailed)
        && forall k | k in picked && k !in old(picked) :: picked[k] == PurePick(sv, d, d.spotOf(k))
    {
      hide FirstFit, Fits, PurePick, Steady, QueryOf, Crawlable;
      e, queries := None, [];
      var n := 0;
      while n < |items|
        invariant 0 <= n <= |items| && Sound() && NoRepeats(queries)
        invariant forall q | q in queries :: (q, true) !in found
        invariant forall w | w in items[..n] && Crawlable(Target(w)) ::
          QueryOf(Target(w)) in queries || (QueryOf(Target(w)), true) in found
        invariant forall w | w in items[..n] && w.placeId == "" ::
          KeyOf(sv, w.spot) in picked || KeyOf(sv, w.spot) in pickFailed
        invariant forall k | k in old(picked) :: k in picked && picked[k] == old(picked)[k]
        invariant forall d | Steady(sv, d) && Refers(sv, d, items) ::
          && pickFailed <= old(pickFailed)
          && forall k | k in picked && k !in old(picked) :: picked[k] == PurePick(sv, d, d.spotOf(k))
      {
        var w := items[n];
        assert w in items && items[..n + 1] == items[..n] + [w];
        n := n + 1;
        if w.placeId == "" {
          var key := KeyOf(sv, w.spot);
          if key !in picked {
            var wall := PickOnce(w.spot);
            if wall { return Some(Wall), queries; }
          }
        }
        if Crawlable(Target(w)) {
          var query := QueryOf(Target(w));
          if (query, true) !in found && query !in queries {
            queries := queries + [query];
          }
        }
      }
      assert items[..n] == items;
    }

    /** A lot. Without a wall, every crawlable id of it ends found or failed and not both, and
        lotFailed says whether a run failed; the runs are small, and none carries a query a third
        time. In a steady world the caches stay true and the whole lot is covered. */
    method Prefetch(items: seq<Want>) returns (e: Option<Error>)
      requires Sound()
      modifies this`calls, this`picked, this`pickFailed, this`runs, this`failed, this`found, this`lotFailed
      ensures Sound()
      ensures runs[..Min(|old(runs)|, |runs|)] == old(runs) && Frugal(runs[|old(runs)|..])
      ensures e != Some(Wall) ==> (e.Some? <==> lotFailed)
      ensures e != Some(Wall) ==> forall w | w in items && Crawlable(Target(w)) ::
        (QueryOf(Target(w)), true) in found <==> QueryOf(Target(w)) !in failed
      ensures e != Some(Wall) ==> forall w | w in items && w.placeId == "" ::
        KeyOf(sv, w.spot) in picked <==> KeyOf(sv, w.spot) !in pickFailed
      ensures e != Some(Wall) ==> Ready(items)
      ensures e == Some(Wall) && runs == old(runs) ==> lotFailed == old(lotFailed)
      ensures forall d | Steady(sv, d) && Refers(sv, d, items) && old(Coherent(d)) ::
        e.None? && Coherent(d) && forall w | w in items :: Covered(w)
    {
      NothingSentYet();
      assert runs[|old(runs)|..] == [];
      hide Steady, FirstFit, Crawlable, NoRepeats, Frugal;
      var queries;
      e, queries := Collect(items);
      if e.Some? { return; }
      label Picked:
      e := RunLot(queries);
      assert forall w {:trigger Target(w)} | w in items :: Target(w) == old@Picked(Target(w));
      forall w | w in items && e.None? ensures Settled(w) {
        assert Crawlable(Target(w)) ==> (QueryOf(Target(w)), true) in found;
      }
      forall d | Steady(sv, d) && Refers(sv, d, items) && old(Coherent(d))
        ensures e.None? && Coherent(d) && forall w | w in items :: Covered(w)
      {
        assert pickFailed == {};
      }
    }

    // ---- search and place_details -------------------------------------------------------------

    /** No single run on a degraded Apify, then both caps. */
    method CheckBudgets(reviews: bool, essentials: nat) returns (e: Option<Error>)
      modifies this`calls
      ensures lotFailed ==> e == Some(BatchFailed) && calls == old(calls)
      ensures forall d | Steady(sv, d) :: !lotFailed ==> e.None?
    {
      if lotFailed { return Some(BatchFailed); }
      calls := calls + 1;
      var apify := sv.apifyBudget(calls, Asked(reviews, maxReviews));
      if apify.Fails? { return Some(apify.error); }
      if essentials > 0 {
        var google := sv.googleBudget(calls, essentials);
        if google.Fails? { return Some(google.error); }
      }
      return None;
    }

    /** The cached answer, if any; a query whose batched run failed raises. */
    method Take(id: string, reviews: bool) returns (r: Reply<(bool, Option<Item>)>)
      ensures r == if !Crawlable(id) then Ok((true, None))
        else if Cached(QueryOf(id), reviews) then
          Ok((true, found[(QueryOf(id), if (QueryOf(id), reviews) in found then reviews else true)]))
        else if QueryOf(id) in failed then Fails(BatchFailed) else Ok((false, None))
    {
      if !Crawlable(id) { return Ok((true, None)); }
      var keys, n := [(QueryOf(id), reviews), (QueryOf(id), true)], 0;
      while n < 2
        invariant 0 <= n <= 2
        invariant forall m | 0 <= m < n :: keys[m] !in found
      {
        if keys[n] in found {
          assert n == 1 ==> keys[0] !in found;
          return Ok((true, found[keys[n]]));
        }
        n := n + 1;
      }
      assert keys[0] !in found && keys[1] !in found;
      if QueryOf(id) in failed { return Fails(BatchFailed); }
      return Ok((false, None));
    }

    /** A run of its own, and one more on a miss. */
    method ApifySingle(id: string, reviews: bool) returns (r: Reply<Option<Item>>)
      modifies this`calls, this`runs
      ensures |runs| <= |old(runs)| + 2
      ensures forall d | Steady(sv, d) :: r == Ok(d.item(QueryOf(id), Asked(reviews, maxReviews)))
    {
      var n := 0;
      while n < 2
        invariant 0 <= n <= 2 && |runs| == |old(runs)| + n
        invariant forall d | Steady(sv, d) && n > 0 :: d.item(QueryOf(id), Asked(reviews, maxReviews)).None?
      {
        var answer := Lookup([QueryOf(id)], Asked(reviews, maxReviews));
        if answer.Fails? { return Fails(answer.error); }
        if QueryOf(id) in answer.value { return Ok(Some(answer.value[QueryOf(id)])); }
        n := n + 1;
      }
      return Ok(None);
    }

    /** The pick of a lot, or one of its own. */
    method PickFor(s: Spot, reviews: bool) returns (r: Reply<Option<Essentials>>)
      requires Sound()
      modifies this`calls
      ensures KeyOf(sv, s) in picked ==> r == Ok(picked[KeyOf(sv, s)])
      ensures KeyOf(sv, s) in pickFailed ==> r == Fails(BatchFailed) && calls == old(calls)
      ensures forall d | Steady(sv, d) && d.spotOf(KeyOf(sv, s)) == s && old(Coherent(d)) :: r == Ok(PurePick(sv, d, s))
    {
      var key := KeyOf(sv, s);
      if key in picked {
        return Ok(picked[key]);
      } else if key in pickFailed {
        return Fails(BatchFailed);
      }
      var broke := CheckBudgets(reviews, PICK_CANDIDATES);
      if broke.Some? { return Fails(broke.value); }
      r := Pick(s);
    }

    /** The item the search goes on with: the cached one, else that of a run of its own. */
    method ItemOf(id: string, reviews: bool) returns (r: Reply<Option<Item>>)
      modifies this`calls, this`runs
      ensures |runs| <= |old(runs)| + 2
      ensures lotFailed || !Crawlable(id) || (QueryOf(id), true) in found ==> runs == old(runs)
      ensures forall d | Steady(sv, d) && Coherent(d) && Crawlable(id) ::
        || r == Ok(d.item(QueryOf(id), Asked(true, maxReviews)))
        || (!reviews && r == Ok(d.item(QueryOf(id), Asked(false, maxReviews))))
    {
      hide Steady, Crawlable, PureDetails, PurePick;
      var taken := Take(id, reviews);
      if taken.Fails? { return Fails(taken.error); }
      if taken.value.0 { return Ok(taken.value.1); }
      var broke := CheckBudgets(reviews, 0);
      if broke.Some? { return Fails(broke.value); }
      r := ApifySingle(id, reviews);
    }

    /** Nothing or one hit. No run when the lot before it failed, or when a lot covered the spot;
        a key whose pick failed raises before any call. In a steady world it answers what it would
        with nothing cached, and details for the same place are then free. */
    method Search(s: Spot, reviews: bool) returns (r: Reply<Option<SearchHit>>)
      requires Sound()
      modifies this`calls, this`runs, this`pairs
      ensures |runs| <= |old(runs)| + 2
      ensures old(lotFailed) || Covered(Want("", s)) ==> runs == old(runs)
      ensures KeyOf(sv, s) in pickFailed ==> r == Fails(BatchFailed) && calls == old(calls) && runs == old(runs)
      ensures r.Ok? && r.value.Some? ==> (r.value.value.essentials.placeId, reviews) in pairs
      ensures forall d | Steady(sv, d) && Plain(d) && d.spotOf(KeyOf(sv, s)) == s && old(Coherent(d)) ::
        r == Ok(PureSearch(sv, d, maxReviews, s, reviews)) && Coherent(d)
    {
      hide Steady, Plain, FirstFit, Fits, PureDetails, Crawlable, Bias, PickQuery, Top, ToPlaceDetails, Status;
      var pick := PickFor(s, reviews);
      if pick.Fails? { return Fails(pick.error); }
      var essentials := pick.value;
      if essentials.None? { return Ok(None); }
      var id := essentials.value.placeId;
      forall d | Steady(sv, d) && Plain(d) && d.spotOf(KeyOf(sv, s)) == s && old(Coherent(d)) ensures Crawlable(id) {
        FitIsEssentials(sv, d, s, Top(d.ids(PickQuery(s), s.at, Bias(s))));
      }
      var answer := ItemOf(id, reviews);
      if answer.Fails? { return Fails(answer.error); }
      var item := answer.value;
      forall d | Steady(sv, d) && Plain(d) && d.spotOf(KeyOf(sv, s)) == s && old(Coherent(d))
        ensures PureSearch(sv, d, maxReviews, s, reviews) ==
          if item.Some? then Some(ToSearchHit(item.value, essentials.value)) else None
        ensures item.Some? ==>
          PureDetails(d, maxReviews, id, reviews) == Ok(ToPlaceDetails(item.value, essentials.value, reviews))
      {
        PairAgrees(sv, d, maxReviews, s, item, reviews, essentials.value);
      }
      if item.None? { return Ok(None); }
      pairs := pairs[(id, reviews) := (item.value, essentials.value)];
      return Ok(Some(ToSearchHit(item.value, essentials.value)));
    }

    /** The details dict. No call at all after the search that matched the place; no run when the
        lot before it failed or the id is covered; reviews only for a caller that asked. */
    method PlaceDetails(id: string, reviews: bool) returns (r: Reply<Details>)
      requires Sound()
      modifies this`calls, this`runs, this`pairs
      ensures |runs| <= |old(runs)| + 2
      ensures old(lotFailed) || !Crawlable(id) || (QueryOf(id), true) in found ==> runs == old(runs)
      ensures (id, reviews) in old(pairs) ==> r.Ok? && calls == old(calls) && runs == old(runs)
      ensures (id, reviews) !in old(pairs) && QueryOf(id) in failed && Crawlable(id) ==>
        ((QueryOf(id), reviews) !in found ==> r == Fails(BatchFailed) && calls == old(calls))
      ensures r.Ok? && !reviews ==> r.value.reviews == []
      ensures r.Ok? ==> FromHalves(r.value, reviews)
      ensures pairs == old(pairs) - {(id, reviews)}
      ensures forall d | Steady(sv, d) && Plain(d) && old(Coherent(d)) ::
        r == PureDetails(d, maxReviews, id, reviews) && Coherent(d)
    {
      if (id, reviews) in pairs {
        var pair := pairs[(id, reviews)];
        pairs := pairs - {(id, reviews)};
        return Ok(ToPlaceDetails(pair.0, pair.1, reviews));
      }
      assert pairs == pairs - {(id, reviews)};
      var taken := Take(id, reviews);
      if taken.Fails? { return Fails(taken.error); }
      var item := taken.value.1;
      if taken.value.0 && item.None? { return Fails(NoResult); }
      if !taken.value.0 {
        var broke := CheckBudgets(reviews, 1);
        if broke.Some? { return Fails(broke.value); }
      }
      r := DetailsFrom(id, reviews, item);
    }

    /** The essentials, then the item if none was cached. */
    method DetailsFrom(id: string, reviews: bool, cached: Option<Item>) returns (r: Reply<Details>)
      modifies this`calls, this`runs
      ensures |runs| <= |old(runs)| + 2 && (cached.Some? ==> runs == old(runs))
      ensures r.Ok? && !reviews ==> r.value.reviews == []
      ensures r.Ok? ==> FromHalves(r.value, reviews)
      ensures forall d | Steady(sv, d) ::
        var item := if cached.Some? then cached else d.item(QueryOf(id), Asked(reviews, maxReviews));
        r == if item.None? then Fails(NoResult) else Ok(ToPlaceDetails(item.value, d.essentials(id, ""), reviews))
    {
      calls := calls + 1;
      var essentials := sv.essentials(calls, id, "");
      if essentials.Fails? { return Fails(essentials.error); }
      var item := cached;
      if item.None? {
        var single := ApifySingle(id, reviews);
        if single.Fails? { return Fails(single.error); }
        item := single.value;
      }
      if item.None? { return Fails(NoResult); }
      return Ok(ToPlaceDetails(item.value, essentials.value, reviews));
    }

    /** One record of the lot, as the enrichment consumes it: its details, after a search for the
        place when it has no id. */
    method Serve(w: Want, reviews: bool) returns (r: Reply<Option<Details>>)
      requires Sound()
      modifies this`calls, this`runs, this`pairs
      ensures old(lotFailed) || Settled(w) ==> runs == old(runs)
      ensures forall d | Steady(sv, d) && Plain(d) && Refers(sv, d, [w]) && old(Coherent(d)) ::
        Coherent(d) && r == PureServe(sv, d, maxReviews, w, reviews)
    {
      hide Steady, Plain, PureDetails, PureSearch, FirstFit;
      var id := w.placeId;
      if id == "" {
        assert w in [w];
        var hit := Search(w.spot, reviews);
        if hit.Fails? { return Fails(hit.error); }
        if hit.value.None? { return Ok(None); }
        id := hit.value.value.essentials.placeId;
      }
      var details := PlaceDetails(id, reviews);
      if details.Fails? { return Fails(details.error); }
      return Ok(Some(details.value));
    }

    /** A lot ready to be served: its last prefetch had a failed run, or left every item settled. */
    predicate Ready(items: seq<Want>)
      reads this`found, this`picked, this`pickFailed, this`lotFailed
    {
      lotFailed || forall w | w in items :: Settled(w)
    }

    /** Serving the records of a ready lot starts no Apify run, whatever Google and Apify do
        meanwhile; and in a steady world each answer is the one empty caches would give, prefetched
        or not. */
    method ServeLot(items: seq<Want>, reviews: bool) returns (answers: seq<Reply<Option<Details>>>)
      requires Sound()
      modifies this`calls, this`runs, this`pairs
      ensures old(Ready(items)) ==> runs == old(runs)
      ensures |answers| == |items|
      ensures forall d | Steady(sv, d) && Plain(d) && Refers(sv, d, items) && old(Coherent(d)) ::
        Coherent(d) && forall i | 0 <= i < |items| :: answers[i] == PureServe(sv, d, maxReviews, items[i], reviews)
    {
      hide Steady, Plain, PureServe;
      answers := [];
      while |answers| < |items|
        invariant |answers| <= |items| && (old(Ready(items)) ==> runs == old(runs))
        invariant forall d | Steady(sv, d) && Plain(d) && Refers(sv, d, items) && old(Coherent(d)) ::
          && Coherent(d)
          && forall i | 0 <= i < |answers| :: answers[i] == PureServe(sv, d, maxReviews, items[i], reviews)
      {
        var w := items[|answers|];
        assert w in items;
        var answer := Serve(w, reviews);
        answers := answers + [answer];
      }
    }
  }

  /** Each name item of the lot is the one spot of its key. */
  ghost predicate Refers(sv: Services, d: World, items: seq<Want>) {
    forall w | w in items && w.placeId == "" :: d.spotOf(KeyOf(sv, w.spot)) == w.spot
  }

  lemma OneRunIsFrugal(runs: seq<RunLog>, qs: seq<string>)
    requires |runs| == 1 && runs[0].queries == qs && 0 < |qs| <= APIFY_RUN_MAX_QUERIES
    ensures Frugal(runs) && forall q :: Sent(runs, q) == if q in qs then 1 else 0
  {
    assert runs[..0] == [];
  }

  lemma TwoRunsAreFrugal(one: seq<RunLog>, two: seq<RunLog>, chunk: seq<string>, missed: seq<string>)
    requires |one| == 1 && one[0].queries == chunk && 0 < |chunk| <= APIFY_RUN_MAX_QUERIES
    requires |two| == 1 && two[0].queries == missed && 0 < |missed| <= |chunk| && forall q | q in missed :: q in chunk
    ensures Frugal(one + two) && forall q | q !in chunk :: Sent(one + two, q) == 0
  {
    OneRunIsFrugal(one, chunk);
    OneRunIsFrugal(two, missed);
    forall q ensures Sent(one + two, q) == Sent(one, q) + Sent(two, q) { SentAppend(one, two, q); }
  }

  lemma ItemsGot(d: World, qs: seq<string>, reviews: nat, q: string)
    requires q in qs
    ensures Got(Items(d, qs, reviews), q) == d.item(q, reviews)
  {
  }
}
