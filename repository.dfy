/**
 * The payload-fields repository: resolution of status, service and source
 * names to dimension rows. Two implementations stand behind one interface:
 * a direct lookup in the store, and a caching decorator with one
 * time-to-live cache per dimension that wraps the direct lookup. A factory
 * picks one from the configured implementation name.
 */
module Repository {
  import opened Models
  import opened TtlCache
  import opened Store

  // ---------------------------------------------------------------------------
  // One cached resolution, and a run of them
  // ---------------------------------------------------------------------------

  /** One cached resolution: its answer, the cache afterwards, and how many times the wrapped repository was asked. */
  datatype Step = Step(result: Dimension, cache: Cache<Dimension>, wrappedCalls: nat)

  /**
   * A cached `Get*`: an unexpired entry is answered from the cache without
   * asking the wrapped repository; otherwise the wrapped repository is asked
   * once and whatever it returns, the zero row included, is cached at `now`.
   */
  function CachedGet(c: Cache<Dimension>, table: seq<Dimension>, name: string, now: nat): (s: Step)
    ensures Fresh(c, name, now) ==> s == Step(c[name].value, c, 0)
    ensures !Fresh(c, name, now) ==>
      && s.result == FindByName(table, name)
      && s.cache == Add(c, name, s.result, now)
      && s.wrappedCalls == 1
  {
    match Get(c, name, now)
    case Some(cached) => Step(cached, c, 0)
    case None =>
      var fromStore := FindByName(table, name);
      Step(fromStore, Add(c, name, fromStore, now), 1)
  }

  /** A resolution request: a name and the time it is made. */
  datatype Lookup = Lookup(name: string, now: nat)

  /** The answers of a run of resolutions, the final cache and the total calls to the wrapped repository. */
  datatype Trace = Trace(results: seq<Dimension>, cache: Cache<Dimension>, wrappedCalls: nat)

  /** Resolve each lookup in turn through one cache, against a store that does not change meanwhile. */
  function CachedGets(c: Cache<Dimension>, table: seq<Dimension>, lookups: seq<Lookup>): (t: Trace)
    ensures |t.results| == |lookups|
    ensures t.wrappedCalls <= |lookups|
    decreases |lookups|
  {
    if lookups == [] then Trace([], c, 0)
    else
      var s := CachedGet(c, table, lookups[0].name, lookups[0].now);
      var rest := CachedGets(s.cache, table, lookups[1..]);
      Trace([s.result] + rest.results, rest.cache, s.wrappedCalls + rest.wrappedCalls)
  }

  /**
   * Repeated resolutions of a cached name before its entry expires make no
   * call to the wrapped repository and all return the cached value.
   */
  lemma {:induction false} HitsCallNothing(c: Cache<Dimension>, table: seq<Dimension>, name: string, lookups: seq<Lookup>)
    requires name in c
    requires forall i | 0 <= i < |lookups| :: lookups[i].name == name && lookups[i].now <= c[name].insertedAt + TTL
    ensures CachedGets(c, table, lookups).wrappedCalls == 0
    ensures CachedGets(c, table, lookups).cache == c
    ensures forall i | 0 <= i < |lookups| :: CachedGets(c, table, lookups).results[i] == c[name].value
    decreases |lookups|
  {
    if lookups != [] {
      HitsCallNothing(c, table, name, lookups[1..]);
      var rest := CachedGets(c, table, lookups[1..]);
      assert CachedGets(c, table, lookups).results == [c[name].value] + rest.results;
    }
  }

  /**
   * The first resolution of a name that is not cached (or whose entry has
   * expired) asks the wrapped repository exactly once; every further
   * resolution within the time-to-live of that first one asks it no more,
   * and all of them return what the store held at the first.
   */
  lemma FirstSightingCallsOnce(c: Cache<Dimension>, table: seq<Dimension>, name: string, lookups: seq<Lookup>)
    requires |lookups| > 0 && !Fresh(c, name, lookups[0].now)
    requires forall i | 0 <= i < |lookups| :: lookups[i].name == name && lookups[i].now <= lookups[0].now + TTL
    ensures CachedGets(c, table, lookups).wrappedCalls == 1
    ensures forall i | 0 <= i < |lookups| :: CachedGets(c, table, lookups).results[i] == FindByName(table, name)
  {
    var first := CachedGet(c, table, name, lookups[0].now);
    HitsCallNothing(first.cache, table, name, lookups[1..]);
    var rest := CachedGets(first.cache, table, lookups[1..]);
    assert CachedGets(c, table, lookups).results == [first.result] + rest.results;
  }

  /** Once an entry has expired, the next resolution asks the wrapped repository once more, whatever the cached value was. */
  lemma ExpiredEntryCallsAgain(c: Cache<Dimension>, table: seq<Dimension>, name: string, now: nat)
    requires name in c && now > c[name].insertedAt + TTL
    ensures CachedGet(c, table, name, now).wrappedCalls == 1
    ensures CachedGet(c, table, name, now).result == FindByName(table, name)
  {
  }

  /**
   * A cached "not found" is served until it expires: a row created in the
   * store after the miss is not seen by the cached resolver within the
   * time-to-live, although a direct lookup would see it.
   */
  lemma CachedMissHidesNewRows(c: Cache<Dimension>, before: seq<Dimension>, after: seq<Dimension>, name: string, t1: nat, t2: nat)
    requires !Fresh(c, name, t1) && FindByName(before, name) == ZeroDimension
    requires t2 <= t1 + TTL
    ensures CachedGet(CachedGet(c, before, name, t1).cache, after, name, t2) ==
            Step(ZeroDimension, CachedGet(c, before, name, t1).cache, 0)
  {
  }

  /** The distinct names a run of lookups asks for. */
  ghost function Names(lookups: seq<Lookup>): set<string>
  {
    set i | 0 <= i < |lookups| :: lookups[i].name
  }

  /** Every lookup of the run falls within one time-to-live of every other. */
  ghost predicate WithinOneTtl(lookups: seq<Lookup>)
  {
    forall i, j | 0 <= i < |lookups| && 0 <= j < |lookups| :: lookups[j].now <= lookups[i].now + TTL
  }

  /** Every cached entry stays unexpired for the whole run. */
  ghost predicate StaysFresh(c: Cache<Dimension>, lookups: seq<Lookup>)
  {
    forall k, i | k in c && 0 <= i < |lookups| :: lookups[i].now <= c[k].insertedAt + TTL
  }

  /** The names of a non-empty run: its first name and those of the rest. */
  lemma NamesOfCons(lookups: seq<Lookup>)
    requires lookups != []
    ensures Names(lookups) == {lookups[0].name} + Names(lookups[1..])
  {
  }

  /** After the first lookup of a run, the rest of the run still satisfies the window and freshness conditions. */
  lemma RestStaysFresh(c: Cache<Dimension>, table: seq<Dimension>, lookups: seq<Lookup>)
    requires lookups != [] && WithinOneTtl(lookups) && StaysFresh(c, lookups)
    ensures WithinOneTtl(lookups[1..])
    ensures StaysFresh(CachedGet(c, table, lookups[0].name, lookups[0].now).cache, lookups[1..])
  {
  }

  /** Counting uncached names: a name already held adds nothing, a new one adds one and is held from then on. */
  lemma UncachedNamesStep(keys: set<string>, n: string, rest: set<string>)
    ensures n in keys ==> ({n} + rest) - keys == rest - keys
    ensures n !in keys ==> |({n} + rest) - keys| == 1 + |rest - (keys + {n})|
  {
    if n !in keys {
      assert ({n} + rest) - keys == {n} + (rest - (keys + {n}));
    }
  }

  /** The first lookup of a run: a hit when its name is cached, otherwise a miss that adds the name. */
  lemma FirstOfRun(c: Cache<Dimension>, table: seq<Dimension>, lookups: seq<Lookup>)
    requires lookups != [] && StaysFresh(c, lookups)
    ensures var s := CachedGet(c, table, lookups[0].name, lookups[0].now);
      && CachedGets(c, table, lookups).wrappedCalls == s.wrappedCalls + CachedGets(s.cache, table, lookups[1..]).wrappedCalls
      && (lookups[0].name in c ==> s.wrappedCalls == 0 && s.cache.Keys == c.Keys)
      && (lookups[0].name !in c ==> s.wrappedCalls == 1 && s.cache.Keys == c.Keys + {lookups[0].name})
  {
  }

  /**
   * Within one time-to-live the cache asks the wrapped repository exactly
   * once for each distinct name it does not already hold, however often
   * each name is resolved.
   */
  lemma {:induction false} OneCallPerUncachedName(c: Cache<Dimension>, table: seq<Dimension>, lookups: seq<Lookup>)
    requires WithinOneTtl(lookups) && StaysFresh(c, lookups)
    ensures CachedGets(c, table, lookups).wrappedCalls == |Names(lookups) - c.Keys|
    decreases |lookups|
  {
    if lookups == [] {
      assert Names(lookups) == {};
    } else {
      var l := lookups[0];
      var s := CachedGet(c, table, l.name, l.now);
      FirstOfRun(c, table, lookups);
      NamesOfCons(lookups);
      RestStaysFresh(c, table, lookups);
      OneCallPerUncachedName(s.cache, table, lookups[1..]);
      UncachedNamesStep(c.Keys, l.name, Names(lookups[1..]));
    }
  }

  // ---------------------------------------------------------------------------
  // The two implementations
  // ---------------------------------------------------------------------------

  /** `PayloadFieldsRepositoryFromDB`: every `Get*` is a lookup in the store. */
  class DirectRepository {
    const db: Database
    /** Store round trips made so far; the cached repository's promises are stated with it. */
    ghost var lookups: nat

    constructor (db: Database)
      ensures this.db == db && lookups == 0
    {
      this.db := db;
      lookups := 0;
    }

    /** `GetStatus`: the status row with that name, or the zero row when there is none; never an error. */
    method GetStatus(statusName: string) returns (status: Dimension)
      modifies this`lookups
      ensures status == FindByName(db.statuses, statusName)
      ensures lookups == old(lookups) + 1
    {
      status := FindByName(db.statuses, statusName);
      lookups := lookups + 1;
    }

    /** `GetService`: the service row with that name, or the zero row when there is none; never an error. */
    method GetService(serviceName: string) returns (service: Dimension)
      modifies this`lookups
      ensures service == FindByName(db.services, serviceName)
      ensures lookups == old(lookups) + 1
    {
      service := FindByName(db.services, serviceName);
      lookups := lookups + 1;
    }

    /** `GetSource`: the source row with that name, or the zero row when there is none; never an error. */
    method GetSource(sourceName: string) returns (source: Dimension)
      modifies this`lookups
      ensures source == FindByName(db.sources, sourceName)
      ensures lookups == old(lookups) + 1
    {
      source := FindByName(db.sources, sourceName);
      lookups := lookups + 1;
    }
  }

  /**
   * `PayloadFieldsRepositoryFromCache`: three independent caches, one per
   * dimension, in front of the wrapped repository.
   */
  class CachedRepository {
    const payloadFields: DirectRepository
    var statusCache: Cache<Dimension>
    var serviceCache: Cache<Dimension>
    var sourceCache: Cache<Dimension>

    /** `newPayloadFieldsRepositoryFromCache`: wrap a repository with three empty caches. */
    constructor (payloadFields: DirectRepository)
      ensures this.payloadFields == payloadFields
      ensures statusCache == map[] && serviceCache == map[] && sourceCache == map[]
    {
      this.payloadFields := payloadFields;
      statusCache, serviceCache, sourceCache := map[], map[], map[];
    }

    /** `GetStatus` through the status cache; the other two caches are untouched. */
    method GetStatus(statusName: string, now: nat) returns (status: Dimension)
      modifies this`statusCache, payloadFields`lookups
      ensures var s := CachedGet(old(statusCache), payloadFields.db.statuses, statusName, now);
        && status == s.result && statusCache == s.cache
        && payloadFields.lookups == old(payloadFields.lookups) + s.wrappedCalls
      ensures serviceCache == old(serviceCache) && sourceCache == old(sourceCache)
    {
      match Get(statusCache, statusName, now)
      case Some(cached) =>
        status := cached;
      case None =>
        status := payloadFields.GetStatus(statusName);
        statusCache := Add(statusCache, statusName, status, now);
    }

    /** `GetService` through the service cache; the other two caches are untouched. */
    method GetService(serviceName: string, now: nat) returns (service: Dimension)
      modifies this`serviceCache, payloadFields`lookups
      ensures var s := CachedGet(old(serviceCache), payloadFields.db.services, serviceName, now);
        && service == s.result && serviceCache == s.cache
        && payloadFields.lookups == old(payloadFields.lookups) + s.wrappedCalls
      ensures statusCache == old(statusCache) && sourceCache == old(sourceCache)
    {
      match Get(serviceCache, serviceName, now)
      case Some(cached) =>
        service := cached;
      case None =>
        service := payloadFields.GetService(serviceName);
        serviceCache := Add(serviceCache, serviceName, service, now);
    }

    /** `GetSource` through the source cache; the other two caches are untouched. */
    method GetSource(sourceName: string, now: nat) returns (source: Dimension)
      modifies this`sourceCache, payloadFields`lookups
      ensures var s := CachedGet(old(sourceCache), payloadFields.db.sources, sourceName, now);
        && source == s.result && sourceCache == s.cache
        && payloadFields.lookups == old(payloadFields.lookups) + s.wrappedCalls
      ensures statusCache == old(statusCache) && serviceCache == old(serviceCache)
    {
      match Get(sourceCache, sourceName, now)
      case Some(cached) =>
        source := cached;
      case None =>
        source := payloadFields.GetSource(sourceName);
        sourceCache := Add(sourceCache, sourceName, source, now);
    }
  }

  // ---------------------------------------------------------------------------
  // The factory
  // ---------------------------------------------------------------------------

  datatype Implementation = FromDB | FromCache

  /** The implementation a configured name selects: "db", "db_with_cache", or none at all. */
  function SelectImplementation(impl: string): (r: Option<Implementation>)
    ensures r == Some(FromDB) <==> impl == "db"
    ensures r == Some(FromCache) <==> impl == "db_with_cache"
    ensures r == None <==> impl != "db" && impl != "db_with_cache"
  {
    if impl == "db" then Some(FromDB)
    else if impl == "db_with_cache" then Some(FromCache)
    else None
  }

  /** A value of the `PayloadFieldsRepository` interface: one of its two implementations. */
  datatype PayloadFieldsRepository = Direct(direct: DirectRepository) | Cached(cached: CachedRepository)

  const ConfigError := "unable to configure PayloadFieldRepository implementation"

  /**
   * `NewPayloadFieldsRepository`: a direct repository over the store for
   * "db", a cache around one for "db_with_cache", and no repository but an
   * error for any other name.
   */
  method NewPayloadFieldsRepository(db: Database, impl: string) returns (repo: Option<PayloadFieldsRepository>, err: Option<string>)
    ensures repo.Some? <==> err.None?
    ensures SelectImplementation(impl) == None ==> repo == None && err == Some(ConfigError)
    ensures SelectImplementation(impl) == Some(FromDB) ==>
      && repo.Some? && repo.value.Direct?
      && fresh(repo.value.direct) && repo.value.direct.db == db && repo.value.direct.lookups == 0
    ensures SelectImplementation(impl) == Some(FromCache) ==>
      && repo.Some? && repo.value.Cached?
      && fresh(repo.value.cached) && fresh(repo.value.cached.payloadFields)
      && repo.value.cached.payloadFields.db == db && repo.value.cached.payloadFields.lookups == 0
      && repo.value.cached.statusCache == map[] && repo.value.cached.serviceCache == map[]
      && repo.value.cached.sourceCache == map[]
  {
    var payloadDB := new DirectRepository(db);
    match SelectImplementation(impl)
    case Some(FromDB) =>
      repo, err := Some(Direct(payloadDB)), None;
    case Some(FromCache) =>
      var cached := new CachedRepository(payloadDB);
      repo, err := Some(Cached(cached)), None;
    case None =>
      repo, err := None, Some(ConfigError);
  }
}
