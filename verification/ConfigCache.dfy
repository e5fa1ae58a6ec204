/**
 The overlay's cache: a session's dirty mark and the listeners that act on it, and readers and
 writers that interleave GET, database read, SET, commit and DELETE. Times are in seconds.
 */
module ConfigCache {
  import opened Common
  import opened ConfigOverlay

  // ---- One session --------------------------------------------------------------------------

  /** A session over config_settings, the marks on it, and the one cached overlay in Redis. */
  class Session {
    var committed: Rows
    var pending: Rows            // what the session reads: its own flushed writes too
    var savepoints: seq<Rows>
    var dirty: bool
    var cache: Option<Overlay>

    constructor (rows: Rows, cache: Option<Overlay>)
      ensures Valid() && committed == pending == rows && !dirty && savepoints == [] && this.cache == cache
    {
      committed, pending, savepoints, dirty, this.cache := rows, rows, [], false, cache;
    }

    /** Rows that differ from the committed ones are never unmarked, not even behind a savepoint. */
    predicate Valid()
      reads this
    {
      && (pending != committed ==> dirty)
      && (forall i | 0 <= i < |savepoints| :: savepoints[i] != committed ==> dirty)
    }

    method UpsertConfig(updates: map<Key, Json>)
      requires Valid()
      modifies this`pending, this`dirty
      ensures Valid() && dirty
      ensures pending == old(pending) + map k | k in updates :: Wrapped(updates[k])
    {
      var todo := updates.Keys;
      while todo != {}
        invariant todo <= updates.Keys
        invariant pending == old(pending) + map k | k in updates && k !in todo :: Wrapped(updates[k])
      {
        var k :| k in todo;
        pending := pending[k := Wrapped(updates[k])];
        todo := todo - {k};
      }
      dirty := true;
    }

    /** Inserts what is absent, and marks the session only if it inserted something. */
    method SeedDefaultConfig(base: Config) returns (inserted: nat)
      requires Valid() && Shaped(base)
      modifies this`pending, this`dirty
      ensures Valid() && pending == Seeded(base, old(pending))
      ensures dirty == (old(dirty) || inserted > 0) && (inserted == 0 <==> pending == old(pending))
    {
      hide IsField, Shaped, Read, SeedFirst;
      var existing := pending;
      inserted := 0;
      SeedOneMore(base, 0);
      assert map[] + existing == existing;
      for i := 0 to |CONFIG_KEYS|
        invariant dirty == old(dirty) && pending == SeedFirst(base, i) + existing
        invariant if inserted == 0 then pending == existing else pending.Keys != existing.Keys
      {
        var f := CONFIG_KEYS[i].0;
        FieldIsListed(i);
        SeedOneMore(base, i);
        if Registered(f) !in existing {
          pending := pending[Registered(f) := Wrapped(Read(base, f))];
          inserted := inserted + 1;
          assert Registered(f) in pending;
        }
      }
      if inserted > 0 {
        dirty := true;
      }
    }

    method BeginNested()
      requires Valid()
      modifies this`savepoints
      ensures Valid() && savepoints == old(savepoints) + [pending]
    {
      savepoints := savepoints + [pending];
    }

    /** after_soft_rollback of a savepoint: the outer write stays pending, and marked. */
    method RollbackNested()
      requires Valid() && savepoints != []
      modifies this`savepoints, this`pending
      ensures Valid() && savepoints == old(savepoints[..|savepoints| - 1])
      ensures pending == old(savepoints[|savepoints| - 1])
    {
      pending := savepoints[|savepoints| - 1];
      savepoints := savepoints[..|savepoints| - 1];
    }

    method ReleaseNested()
      requires Valid() && savepoints != []
      modifies this`savepoints
      ensures Valid() && savepoints == old(savepoints[..|savepoints| - 1])
    {
      savepoints := savepoints[..|savepoints| - 1];
    }

    /** after_commit: every commit that changes the rows drops the cache, as far as Redis answers;
        a commit with no config write since the last outer boundary touches neither. */
    method Commit(redisUp: bool)
      requires Valid()
      modifies this
      ensures Valid() && !dirty && savepoints == [] && committed == pending == old(pending)
      ensures committed != old(committed) && redisUp ==> cache.None?
      ensures !old(dirty) ==> committed == old(committed) && cache == old(cache)
      ensures cache.None? || cache == old(cache)
    {
      committed, savepoints := pending, [];
      if dirty {
        dirty := false;
        if redisUp {
          cache := None;
        }
      }
    }

    method Rollback()
      requires Valid()
      modifies this`pending, this`savepoints, this`dirty
      ensures Valid() && pending == committed && savepoints == [] && !dirty
    {
      pending, savepoints, dirty := committed, [], false;
    }

    /** load_effective_config: the cached rows, else the rows as this session sees them, cached. */
    method LoadEffectiveConfig(env: Config, redis: bool) returns (c: Config)
      requires Shaped(env)
      modifies this`cache
      ensures c == Applied(env, if redis && old(cache).Some? then old(cache).value else OverlayOf(pending))
      ensures cache == if redis && old(cache).None? then Some(OverlayOf(pending)) else old(cache)
    {
      var overlay := if redis then cache else None;
      if overlay.None? {
        overlay := Some(OverlayOf(pending));
        if redis {
          cache := overlay;
        }
      }
      c := ApplyOverlay(env, overlay.value);
    }
  }

  /** Starting from a cache that is empty or true, a session that reads and then rolls back leaves
      an overlay no commit ever made exactly when it read through Redis, missed, and had pending
      rows that read differently from the committed ones. */
  method LoadThenRollback(s: Session, env: Config, redis: bool) returns (c: Config)
    requires s.Valid() && Shaped(env)
    requires s.cache.None? || s.cache.value == OverlayOf(s.committed)
    modifies s
    ensures s.Valid() && s.committed == old(s.committed) && !s.dirty
    ensures (s.cache.Some? && s.cache.value != OverlayOf(s.committed)) <==>
      (redis && old(s.cache).None? && OverlayOf(old(s.pending)) != OverlayOf(old(s.committed)))
  {
    c := s.LoadEffectiveConfig(env, redis);
    s.Rollback();
  }

  /** Such a rollback after one write: the write must be of a registered key and change its value. */
  method RolledBackYetCached(s: Session, env: Config, f: Field, v: Json)
    requires s.Valid() && s.cache.None? && Shaped(env) && IsField(f) && s.pending == s.committed
    modifies s
    ensures s.committed == old(s.committed) && !s.dirty
    ensures (s.cache.Some? && s.cache.value != OverlayOf(s.committed)) <==>
      (Registered(f) !in OverlayOf(s.committed) || OverlayOf(s.committed)[Registered(f)] != v)
  {
    ghost var o := OverlayOf(s.committed);
    s.UpsertConfig(map[Registered(f) := v]);
    assert OverlayOf(s.pending) == o[Registered(f) := v];
    var c := LoadThenRollback(s, env, true);
    if Registered(f) !in o || o[Registered(f)] != v {
      assert o[Registered(f) := v] != o by { assert o[Registered(f) := v][Registered(f)] == v; }
    } else {
      assert o[Registered(f) := v] == o;
    }
  }

  // ---- Readers and writers at once ------------------------------------------------------------

  const MAX_AGE: int := 60

  /** A reader between its commands; a version is the number of config commits it is the rows of. */
  datatype Reader = Idle | Missed | Loaded(version: nat)

  datatype Entry = Entry(version: nat, expires: int)

  /** An overlay handed to a caller, from the cache or from the reader's own database read. */
  datatype Served = Served(version: nat, at: int, cached: bool)

  datatype World = World(now: int, commits: nat, cache: Option<Entry>, readers: seq<Reader>, served: seq<Served>)

  datatype Label =
    | Get(r: nat) | ReadRows(r: nat) | Set(r: nat, ok: bool)
    | Commit | Bust(ok: bool) | Wait(dt: nat)

  function Hit(s: World): Option<Entry> {
    if s.cache.Some? && s.now < s.cache.value.expires then s.cache else None
  }

  function Next(s: World, l: Label): World {
    match l
    case Get(r) =>
      if r < |s.readers| && s.readers[r].Idle? then
        if Hit(s).Some? then s.(served := s.served + [Served(Hit(s).value.version, s.now, true)])
        else s.(readers := s.readers[r := Missed])
      else s
    case ReadRows(r) =>
      if r < |s.readers| && s.readers[r].Missed? then s.(readers := s.readers[r := Loaded(s.commits)]) else s
    case Set(r, ok) =>
      if r < |s.readers| && s.readers[r].Loaded? then
        var version := s.readers[r].version;
        s.(readers := s.readers[r := Idle],
           cache := if ok then Some(Entry(version, s.now + MAX_AGE)) else s.cache,
           served := s.served + [Served(version, s.now, false)])
      else s
    case Commit => s.(commits := s.commits + 1)
    case Bust(ok) => if ok then s.(cache := None) else s
    case Wait(dt) => s.(now := s.now + dt)
  }

  /** What a reader puts in the cache lives a minute, and is not served from then on. */
  lemma EntryLivesAMinute(s: World, r: nat, later: nat)
    requires r < |s.readers| && s.readers[r].Loaded?
    ensures var s' := Next(s, Set(r, true));
      && s'.cache.Some? && s'.cache.value.version == s.readers[r].version
      && (Hit(s'.(now := s.now + later)).Some? <==> later < 60)
  {
  }

  function Run(s: World, tr: seq<Label>): World {
    if tr == [] then s else Next(Run(s, tr[..|tr| - 1]), tr[|tr| - 1])
  }

  function Start(readers: nat): World {
    World(0, 0, None, seq(readers, _ => Idle), [])
  }

  lemma StartIs(readers: nat)
    ensures var s := Start(readers);
      && s.commits == 0 && s.now == 0 && s.cache.None? && s.served == [] && |s.readers| == readers
      && forall i | 0 <= i < readers :: s.readers[i] == Idle
  {
  }

  /** A reader nobody interrupts is served the cache while it lives, and else the committed rows, which
      it leaves in the cache for a minute. */
  lemma ReadAlone(s: World, r: nat)
    requires r < |s.readers| && s.readers[r].Idle?
    ensures var s' := Next(Next(Next(s, Get(r)), ReadRows(r)), Set(r, true));
      s' == if s.cache.Some? && s.now < s.cache.value.expires
        then s.(served := s.served + [Served(s.cache.value.version, s.now, true)])
        else s.(cache := Some(Entry(s.commits, s.now + 60)), served := s.served + [Served(s.commits, s.now, false)])
  {
    if Hit(s).None? {
      assert s.readers[r := Missed][r := Loaded(s.commits)][r := Idle] == s.readers;
    }
  }

  /** A commit is a new version, and drops the cache when its delete arrives; time only passes. */
  lemma WriteAlone(s: World, dt: nat)
    ensures Next(Next(s, Commit), Bust(true)) == s.(commits := s.commits + 1, cache := None)
    ensures Next(Next(s, Commit), Bust(false)) == s.(commits := s.commits + 1)
    ensures Next(s, Wait(dt)) == s.(now := s.now + dt)
  {
  }

  /** The database read a served overlay goes back to. */
  ghost predicate Sourced(served: seq<Served>, i: nat)
    requires i < |served|
  {
    served[i].cached ==> exists j | 0 <= j < i :: WrittenBy(served[j], served[i])
  }

  predicate WrittenBy(w: Served, s: Served) {
    !w.cached && w.version == s.version && w.at <= s.at < w.at + MAX_AGE
  }

  ghost predicate Inv(s: World) {
    && (forall i | 0 <= i < |s.readers| && s.readers[i].Loaded? :: s.readers[i].version <= s.commits)
    && (forall i | 0 <= i < |s.served| ::
          s.served[i].at <= s.now && s.served[i].version <= s.commits && Sourced(s.served, i))
    && (s.cache.Some? ==>
          s.cache.value.version <= s.commits && s.cache.value.expires <= s.now + MAX_AGE &&
          exists j | 0 <= j < |s.served| :: Fills(s.served[j], s.cache.value))
  }

  predicate Fills(w: Served, e: Entry) {
    !w.cached && w.version == e.version && e.expires == w.at + MAX_AGE
  }

  lemma StepKeepsInv(s: World, l: Label)
    requires Inv(s)
    ensures Inv(Next(s, l))
  {
    var s' := Next(s, l);
    forall i | 0 <= i < |s.served| ensures Sourced(s'.served, i) {
      assert Sourced(s.served, i);
      if s.served[i].cached {
        var j :| 0 <= j < i && WrittenBy(s.served[j], s.served[i]);
        assert WrittenBy(s'.served[j], s'.served[i]);
      }
    }
    if s.cache.Some? {
      var j :| 0 <= j < |s.served| && Fills(s.served[j], s.cache.value);
      assert Fills(s'.served[j], s.cache.value);
      if l.Get? && Hit(s).Some? && |s'.served| > |s.served| {
        assert WrittenBy(s'.served[j], s'.served[|s.served|]);
        assert Sourced(s'.served, |s.served|);
      }
    }
    if l.Set? && |s'.served| > |s.served| && l.ok {
      assert Fills(s'.served[|s.served|], s'.cache.value);
    }
  }

  /** Every overlay served from the cache was read from the database, and written to the cache, by
      a reader less than 60 s before; so a pre-commit overlay is never served more than 60 s after
      the last write by a reader that read before the commit. */
  lemma {:induction false} NothingOlderThanAMinute(readers: nat, tr: seq<Label>)
    ensures Inv(Run(Start(readers), tr))
  {
    if tr != [] {
      NothingOlderThanAMinute(readers, tr[..|tr| - 1]);
      StepKeepsInv(Run(Start(readers), tr[..|tr| - 1]), tr[|tr| - 1]);
    }
  }

  /** No reader still holds rows from before commit c, and what the cache holds of them ends by
      the deadline. */
  ghost predicate Settled(s: World, c: nat, deadline: int) {
    && c <= s.commits
    && (forall i | 0 <= i < |s.readers| && s.readers[i].Loaded? :: s.readers[i].version >= c)
    && (s.cache.Some? && s.cache.value.version < c ==> s.cache.value.expires <= deadline)
  }

  lemma {:induction false} SettledStays(s: World, c: nat, deadline: int, tr: seq<Label>)
    requires Settled(s, c, deadline)
    ensures Settled(Run(s, tr), c, deadline) && |Run(s, tr).served| >= |s.served|
    ensures forall i | |s.served| <= i < |Run(s, tr).served| ::
      Run(s, tr).served[i].version >= c || Run(s, tr).served[i].at < deadline
  {
    if tr != [] {
      SettledStays(s, c, deadline, tr[..|tr| - 1]);
      var mid, l := Run(s, tr[..|tr| - 1]), tr[|tr| - 1];
      assert Settled(Next(mid, l), c, deadline);
    }
  }

  /** Even when the DELETE after a commit is lost: once no reader holds rows read before it, an
      overlay from before it is served for less than 60 s more. */
  lemma StaleEndsWithinAMinute(readers: nat, before: seq<Label>, after: seq<Label>)
    requires var s := Run(Start(readers), before);
      forall i | 0 <= i < |s.readers| && s.readers[i].Loaded? :: s.readers[i].version == s.commits
    ensures var s := Run(Start(readers), before);
      var s' := Run(s, after);
      |s'.served| >= |s.served| && forall i | |s.served| <= i < |s'.served| ::
        s'.served[i].version >= s.commits || s'.served[i].at < s.now + MAX_AGE
  {
    NothingOlderThanAMinute(readers, before);
    var s := Run(Start(readers), before);
    SettledStays(s, s.commits, s.now + MAX_AGE, after);
  }

  /** After a DELETE that worked, an overlay from before the commit can still be served from the
      cache exactly if some reader was holding one it had read before it. */
  lemma StaleAfterBustIffStraddler(readers: nat, before: seq<Label>)
    ensures var s := Run(Start(readers), before + [Bust(true)]);
      CanServeOld(s) <==> Straddled(s)
  {
    var tr := before + [Bust(true)];
    assert tr[..|tr| - 1] == before;
    var s := Run(Start(readers), tr);
    if Straddled(s) {
      var r :| 0 <= r < |s.readers| && s.readers[r].Loaded? && s.readers[r].version < s.commits;
      var after := [Set(r, true), Get(r)];
      assert after[..1] == [Set(r, true)] && after[..1][..0] == [];
      var s1 := Next(s, Set(r, true));
      assert Run(s, after[..1]) == s1;
      var s2 := Next(s1, Get(r));
      assert Run(s, after) == s2 && s2.served[|s.served| + 1] == Served(s.readers[r].version, s.now, true);
      assert ServesOld(s, Run(s, after));
    } else {
      forall after: seq<Label> ensures !ServesOld(s, Run(s, after)) {
        SettledStays(s, s.commits, s.now, after);
        TimeGoesOn(s, after);
      }
    }
  }

  /** Some reader holds rows from before the last commit. */
  ghost predicate Straddled(s: World) {
    exists r | 0 <= r < |s.readers| :: s.readers[r].Loaded? && s.readers[r].version < s.commits
  }

  ghost predicate CanServeOld(s: World) {
    exists after: seq<Label> :: ServesOld(s, Run(s, after))
  }

  /** Since s, an overlay from before s's last commit came out of the cache. */
  ghost predicate ServesOld(s: World, s': World) {
    exists i | |s.served| <= i < |s'.served| :: s'.served[i].cached && s'.served[i].version < s.commits
  }

  lemma {:induction false} TimeGoesOn(s: World, tr: seq<Label>)
    ensures Run(s, tr).now >= s.now && |Run(s, tr).served| >= |s.served|
    ensures forall i | |s.served| <= i < |Run(s, tr).served| :: Run(s, tr).served[i].at >= s.now
  {
    if tr != [] {
      TimeGoesOn(s, tr[..|tr| - 1]);
    }
  }
}
