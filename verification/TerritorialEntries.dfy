/**
 The manifest's entries one by one, in the letters of the manifest: which are merges at all, when
 each is refused, and what is written.
 */
module TerritorialEntries {
  import opened Common
  import opened TerritorialFixes
  import opened TerritorialReadings

  /** A card of TripAdvisor. */
  ghost predicate Card(r: Ref) {
    exists id: string :: r == "tripadvisor:" + id
  }

  lemma ListedIff(e: MergeEntry)
    ensures Listed(e) <==> Card(e.drop) && Card(e.keep)
  {
    PrefixedIff(e.drop);
    PrefixedIff(e.keep);
    hide Prefixed, Card;
  }

  lemma PrefixedIff(r: Ref)
    ensures Prefixed(r, "tripadvisor:") <==> Card(r)
  {
    if Prefixed(r, "tripadvisor:") { assert r == "tripadvisor:" + r[12..]; }
  }

  /** A merge that is not refused: both are there, they are two records, the dropped one is not yet
      discarded and the kept one is in Mar. */
  predicate Mergeable(db: Db, e: MergeEntry)
    requires forall s | s in db.mars :: db.mars[s].rio in db.rios
  {
    && e.drop in db.rios && e.keep in db.mars && db.mars[e.keep].rio != e.drop
    && db.rios[e.drop].routing != "descarte" && db.rios[db.mars[e.keep].rio].routing == "mar"
  }

  /** A merge between cards is counted when it is not refused and skipped when it is; --apply discards
      the dropped record and records its ref with the kept one, once. */
  lemma MergeIs(s: State, e: MergeEntry, apply: bool)
    requires forall m | m in s.db.mars :: s.db.mars[m].rio in s.db.rios
    ensures var s' := MergeStep(s, e, apply);
      && (!Card(e.drop) || !Card(e.keep) ==> s' == s)
      && (Card(e.drop) && Card(e.keep) && !Mergeable(s.db, e) ==>
            s'.counts == s.counts.(skipped := s.counts.skipped + 1) && s' == s.(counts := s'.counts))
      && (Card(e.drop) && Card(e.keep) && Mergeable(s.db, e) ==>
            && s'.counts == s.counts.(merge := s.counts.merge + 1)
            && e.drop in s'.planned && s'.planned[e.drop].None? && s'.planned == s.planned[e.drop := None]
            && (!apply ==> s'.db == s.db)
            && (apply ==> MergedAs(s.db, s'.db, e)))
  {
    ListedIff(e);
    hide Card, Prefixed, Listed;
  }

  predicate MergedAs(a: Db, b: Db, e: MergeEntry)
    requires e.drop in a.rios && e.keep in a.mars
  {
    && b.rios.Keys == a.rios.Keys && b.mars.Keys == a.mars.Keys
    && (forall r | r in a.rios && r != e.drop :: b.rios[r] == a.rios[r])
    && (forall m | m in a.mars && m != e.keep :: b.mars[m] == a.mars[m])
    && b.rios[e.drop].routing == "descarte" && b.rios[e.drop] == a.rios[e.drop].(routing := "descarte")
    && b.mars[e.keep].rio == a.mars[e.keep].rio
    && (e.drop in a.mars[e.keep].merged ==> b.mars[e.keep].merged == a.mars[e.keep].merged)
    && (e.drop !in a.mars[e.keep].merged ==> b.mars[e.keep].merged == a.mars[e.keep].merged + [e.drop])
  }

  /** A fix is refused for a record that is not there, for clearing the place without a pin, and for a
      município that is not in the table. */
  lemma FixRefusedIff(c: Context, db: Db, f: FixEntry)
    ensures !Fixable(c, db, f) <==>
      || f.ref !in db.rios
      || (f.clearPlace && (f.lat.None? || f.lng.None?))
      || (f.municipio != "" && f.municipio !in c.municipios)
  {
  }

  /** A fix that clears the place leaves none of what Google gave. */
  lemma ClearedPlace(c: Context, db: Db, f: FixEntry)
    requires Fixable(c, db, f) && f.clearPlace
    ensures var n := FixedNorm(c, db, f, true);
      && At(n, GooglePlaceId) == At(n, PlaceIdCache) == At(n, WeekdayText) == At(n, Address) == At(n, Phone) == Null
      && At(n, Website) == At(n, PriceLevel) == At(n, Signal) == At(n, GoogleFetchedAt) == Null
      && (At(n, DistritoSource) != Text("places_admin_area_level_3"))
  {
    FixedPlaceless(c, db, f, true);
    FixedNormAt(c, db, f, true, DistritoSource);
    hide FixedNorm;
    assert forall k | k in PLACE_KEYS :: At(FixedNorm(c, db, f, true), k) == Null;
    NineKeys();
  }

  lemma NineKeys()
    ensures forall k | k in [GooglePlaceId, PlaceIdCache, WeekdayText, Address, Phone, Website, PriceLevel, Signal,
                             GoogleFetchedAt] :: k in PLACE_KEYS
  {
  }

  /** --apply takes each twin out of Mar with the reason, and touches no other record. */
  lemma TwinsAreDiscarded(s: State, r: Ref)
    requires r in s.db.rios
    ensures var s' := TwinStep(s, true);
      && s'.db.mars == s.db.mars && s'.db.rios.Keys == s.db.rios.Keys
      && s'.counts == s.counts.(samePlace := s.counts.samePlace + |Twins(s.db, s.planned)|)
      && (r in Twins(s.db, s.planned) ==>
            s'.db.rios[r] == s.db.rios[r].(routing := "descarte", reason := "dedup_same_place_id"))
      && (r !in Twins(s.db, s.planned) ==> s'.db.rios[r] == s.db.rios[r])
    ensures TwinStep(s, false).db == s.db && TwinStep(s, false).counts == TwinStep(s, true).counts
  {
    hide Twins;
  }

  /** A twin: an attraction routed to Mar with no Mar of its own, whose place, known and with a
      município, is that of an attraction in Mar. */
  lemma TwinIff(db: Db, planned: Planned, r: Ref)
    ensures r in Twins(db, planned) <==>
      && r in db.rios && db.rios[r].attraction && db.rios[r].routing == "mar" && Pid(db.rios[r].n).Some?
      && (forall m | m in db.mars :: db.mars[m].rio != r)
      && Standing(db, planned, r).Some?
      && (var p := Standing(db, planned, r).value;
          p.municipio.Some? && p.municipio.value != "" && p.pid.Some? && p.pid.value != "")
      && (exists m | m in db.mars && db.mars[m].rio in db.rios :: InMarAs(db, planned, db.mars[m].rio, r))
  {
    if r in Twins(db, planned) {
      var q :| q in db.rios && HasMar(db, q) && db.rios[q].routing == "mar" && db.rios[q].attraction
               && Standing(db, planned, q) == Standing(db, planned, r);
      var m :| m in db.mars && db.mars[m].rio == q;
      assert InMarAs(db, planned, db.mars[m].rio, r);
    }
  }

  /** `q` is an attraction in Mar and stands where `r` does. */
  predicate InMarAs(db: Db, planned: Planned, q: Ref, r: Ref) {
    && q in db.rios && r in db.rios && db.rios[q].attraction && db.rios[q].routing == "mar"
    && Standing(db, planned, q) == Standing(db, planned, r)
  }

  /** A record stands where the run's plan says, and where its columns say without one. */
  lemma StandingIs(db: Db, planned: Planned, r: Ref)
    requires r in db.rios
    ensures r in planned ==> Standing(db, planned, r) == planned[r]
    ensures r !in planned ==>
      (Standing(db, planned, r).Some? && Standing(db, planned, r).value.municipio == db.rios[r].municipio)
    ensures r !in planned ==>
      (Standing(db, planned, r).value.pid ==
         match At(db.rios[r].n, GooglePlaceId) case Text(s) => Some(s) case _ => None)
  {
  }
}
