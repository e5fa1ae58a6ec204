/**
 The answers of the hybrid client, field by field and letter by letter: where each comes from.
 */
module HybridAnswers {
  import opened Common
  import opened HybridPlaces

  // ---- The details --------------------------------------------------------------------------

  /** The details of a place: Apify's item for the name, the status, the other fields and the reviews;
      Google for the id, the types and the distrito, and for the address and the location where it
      has one. */
  predicate Tells(d: Details, i: Item, e: Essentials, reviews: bool) {
    && d.placeId == e.placeId && d.types == e.types && d.distrito == e.distrito
    && d.name == i.title && d.fields == i.fields
    && (d.status == "CLOSED_PERMANENTLY" <==> i.permanentlyClosed)
    && (d.status == "CLOSED_TEMPORARILY" <==> i.temporarilyClosed && !i.permanentlyClosed)
    && (d.status == "OPERATIONAL" <==> !i.temporarilyClosed && !i.permanentlyClosed)
    && (e.address != "" ==> d.address == e.address) && (e.address == "" ==> d.address == i.address)
    && (e.location.Some? ==> d.location == e.location) && (e.location.None? ==> d.location == i.location)
    && (reviews ==> d.reviews == i.reviews) && (!reviews ==> d.reviews == [])
  }

  lemma DetailsTell(i: Item, e: Essentials, reviews: bool)
    ensures Tells(ToPlaceDetails(i, e, reviews), i, e, reviews)
  {
    var shut, paused, open := "CLOSED_PERMANENTLY", "CLOSED_TEMPORARILY", "OPERATIONAL";
    assert shut[7] == 'P' && paused[7] == 'T' && open[0] == 'O' && shut[0] == paused[0] == 'C';
  }

  /** A hit of a search: Google's half, Apify's name, and a location where either has one. */
  lemma HitTells(i: Item, e: Essentials)
    ensures var h := ToSearchHit(i, e);
      && h.essentials == e && h.name == i.title
      && (e.location.Some? ==> h.location == e.location) && (e.location.None? ==> h.location == i.location)
  {
  }

  /** What the caller of place_details reads: some item told with some essentials; in a steady world
      the item Apify has under the id asked for, told with Google's essentials of that id, and NoResult
      exactly for an id the crawler does not take or Apify has nothing for. */
  method ReadDetails(client: Client, id: string, reviews: bool) returns (r: Reply<Details>)
    requires client.Sound()
    modifies client`calls, client`runs, client`pairs
    ensures r.Ok? ==> exists i: Item, e: Essentials :: Tells(r.value, i, e, reviews)
    ensures forall d | Steady(client.sv, d) && Plain(d) && old(client.Coherent(d)) ::
      var item := d.item("place_id:" + id, if reviews then client.maxReviews else 0);
      && (r == Fails(NoResult) <==> !Crawlable(id) || item.None?)
      && (r.Fails? ==> r == Fails(NoResult))
      && (r.Ok? ==> item.Some? && r.value.placeId == id && Tells(r.value, item.value, d.essentials(id, ""), reviews))
  {
    r := client.PlaceDetails(id, reviews);
    if r.Ok? {
      ghost var i: Item, e: Essentials :| r.value == ToPlaceDetails(i, e, reviews);
      DetailsTell(i, e, reviews);
      assert Tells(r.value, i, e, reviews);
    }
    hide Tells, ToPlaceDetails, Crawlable, PureDetails;
    forall d | Steady(client.sv, d) && Plain(d)
      ensures var item, pure := d.item("place_id:" + id, if reviews then client.maxReviews else 0),
                                PureDetails(d, client.maxReviews, id, reviews);
        && (pure == Fails(NoResult) <==> !Crawlable(id) || item.None?)
        && (pure.Fails? ==> pure == Fails(NoResult))
        && (pure.Ok? ==> item.Some? && pure.value.placeId == id
                         && Tells(pure.value, item.value, d.essentials(id, ""), reviews))
    {
      PureDetailsTell(d, client.maxReviews, id, reviews);
    }
  }

  lemma PureDetailsTell(d: World, maxReviews: nat, id: string, reviews: bool)
    requires Plain(d)
    ensures var item, r := d.item("place_id:" + id, if reviews then maxReviews else 0),
                           PureDetails(d, maxReviews, id, reviews);
      && (r == Fails(NoResult) <==> !Crawlable(id) || item.None?)
      && (r.Fails? ==> r == Fails(NoResult))
      && (r.Ok? ==> item.Some? && r.value.placeId == id && Tells(r.value, item.value, d.essentials(id, ""), reviews))
  {
    var item := d.item(QueryOf(id), Asked(reviews, maxReviews));
    if item.Some? { DetailsTell(item.value, d.essentials(id, ""), reviews); }
    hide Crawlable, Tells, ToPlaceDetails;
  }

  // ---- Ids, queries and keys ----------------------------------------------------------------

  /** One of 26 small letters, 26 capitals and 10 digits, or "_", or "-". */
  predicate Word(c: char) {
    || 0 <= c as int - 'a' as int < 26 || 0 <= c as int - 'A' as int < 26 || 0 <= c as int - '0' as int < 10
    || c in "_-"
  }

  /** The crawler takes "ChIJ" or "GhIJ" and twenty-three letters, digits, "_" or "-". */
  lemma CrawlableIff(id: string)
    ensures Crawlable(id) <==>
      exists rest: string | |rest| == 23 && (forall i | 0 <= i < 23 :: Word(rest[i])) ::
        id == "ChIJ" + rest || id == "GhIJ" + rest
  {
    if Crawlable(id) {
      var rest := id[4..];
      assert id == id[..4] + rest;
      forall i | 0 <= i < 23 ensures Word(rest[i]) {
        assert rest[i] == id[i + 4];
        WordIff(rest[i]);
      }
    }
    if rest: string :| |rest| == 23 && (forall i | 0 <= i < 23 :: Word(rest[i])) &&
                       (id == "ChIJ" + rest || id == "GhIJ" + rest) {
      assert id[..4] == "ChIJ" || id[..4] == "GhIJ";
      forall i | 4 <= i < 27 ensures WordChar(id[i]) {
        assert id[i] == rest[i - 4];
        WordIff(id[i]);
      }
    }
  }

  lemma WordIff(c: char)
    ensures Word(c) <==> WordChar(c)
  {
  }

  /** Two spots are one key exactly when their names, municípios and states fold alike. */
  lemma SameKeyIff(sv: Services, a: Spot, b: Spot)
    ensures KeyOf(sv, a) == KeyOf(sv, b) <==>
      && sv.fold(a.nome) == sv.fold(b.nome) && sv.fold(a.municipio) == sv.fold(b.municipio)
      && sv.upper(a.uf) == sv.upper(b.uf)
    ensures KeyOf(sv, a).nome == sv.fold(a.nome) && KeyOf(sv, a).municipio == sv.fold(a.municipio)
  {
  }

  /** Google is asked for "Nome, Município - UF", without a município for "Nome - UF". */
  lemma PickQueryIs(s: Spot)
    ensures s.municipio == "" ==> PickQuery(s) == s.nome + " - " + s.uf
    ensures s.municipio != "" ==> PickQuery(s) == s.nome + ", " + s.municipio + " - " + s.uf
  {
  }

  /** The bias is the radius, kept between five and fifty kilometres. */
  lemma BiasIsClamped(s: Spot)
    ensures 5_000 <= Bias(s) <= 50_000
    ensures 5_000 <= s.radius <= 50_000 ==> Bias(s) == s.radius
    ensures s.radius < 5_000 ==> Bias(s) == 5_000
    ensures s.radius > 50_000 ==> Bias(s) == 50_000
  {
  }

  // ---- The pick -----------------------------------------------------------------------------

  /** A candidate that is no geographic entity, with a point within the radius, and not known to be in
      another state. */
  predicate Near(sv: Services, s: Spot, e: Essentials) {
    && e.location.Some? && sv.distance(s.at, e.location.value) <= s.radius
    && (|sv.upper(e.ufShort)| == 2 ==> sv.upper(e.ufShort) == sv.upper(s.uf))
    && (forall t | t in e.types :: t != "political")
  }

  lemma FitsIffNear(sv: Services, s: Spot, e: Essentials)
    ensures Fits(sv, s, e) <==> Near(sv, s, e)
  {
  }

  /** The i-th candidate of Google can be picked. */
  predicate Good(sv: Services, d: World, s: Spot, i: nat) {
    var ids := d.ids(PickQuery(s), s.at, Bias(s));
    i < |ids| && Crawlable(ids[i]) && Near(sv, s, d.essentials(ids[i], s.uf))
  }

  /** In a steady world the pick is the first good one of the first three candidates, or none. */
  lemma PickIsTheFirstGood(sv: Services, d: World, s: Spot)
    ensures var ids, pick := d.ids(PickQuery(s), s.at, Bias(s)), PurePick(sv, d, s);
      && (pick.None? <==> forall i | 0 <= i < 3 :: !Good(sv, d, s, i))
      && (forall i | 0 <= i < 3 && Good(sv, d, s, i) && (forall j | 0 <= j < i :: !Good(sv, d, s, j)) ::
            pick == Some(d.essentials(ids[i], s.uf)))
  {
    var ids := d.ids(PickQuery(s), s.at, Bias(s));
    var top := Top(ids);
    assert |top| == Min(3, |ids|) && forall i | 0 <= i < |top| :: top[i] == ids[i];
    FirstFitIs(sv, d, s, top);
    forall i | 0 <= i < |top| ensures Good(sv, d, s, i) <==> Takes(sv, d, s, top[i]) {
      FitsIffNear(sv, s, d.essentials(ids[i], s.uf));
    }
    hide Crawlable, Fits, Near, PickQuery, Bias, FirstFit;
  }

  predicate Takes(sv: Services, d: World, s: Spot, id: string) {
    Crawlable(id) && Fits(sv, s, d.essentials(id, s.uf))
  }

  lemma {:induction false} FirstFitIs(sv: Services, d: World, s: Spot, ids: seq<string>)
    ensures var pick := FirstFit(sv, d, s, ids);
      && (pick.None? <==> forall i | 0 <= i < |ids| :: !Takes(sv, d, s, ids[i]))
      && (forall i | 0 <= i < |ids| && Takes(sv, d, s, ids[i]) && (forall j | 0 <= j < i :: !Takes(sv, d, s, ids[j])) ::
            pick == Some(d.essentials(ids[i], s.uf)))
  {
    if ids != [] {
      FirstFitIs(sv, d, s, ids[1..]);
      hide Crawlable, Fits;
      assert forall i | 1 <= i < |ids| :: ids[i] == ids[1..][i - 1];
    }
  }
}
