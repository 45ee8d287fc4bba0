/**
 * The collector registry: a get-or-create cache, keyed by namespace, of the
 * query bundle (ten collectors) and the gauge bundle (three collectors).
 * A bundle is cached only once every one of its collectors is registered
 * with the backend, and a cached bundle is handed out without registering
 * anything again, since the backend rejects a second registration.
 */
module Collectors {
  import opened Wrappers
  import opened Metrics
  import opened Backend

  /**
   * The query bundle. The duration fields are the ones declared as
   * `*AverageTime` in the struct and read as `*Duration` by the callbacks.
   * `None` is a nil collector.
   */
  datatype QueryCounters = QueryCounters(
    all: Option<Collector>,
    allDuration: Option<Collector>,
    creates: Option<Collector>,
    createsDuration: Option<Collector>,
    deletes: Option<Collector>,
    deletesDuration: Option<Collector>,
    queries: Option<Collector>,
    queriesDuration: Option<Collector>,
    updates: Option<Collector>,
    updatesDuration: Option<Collector>)

  /** The connection-pool gauge bundle. */
  datatype DatabaseGauges = DatabaseGauges(
    idle: Option<Collector>,
    inUse: Option<Collector>,
    open: Option<Collector>)

  /** Label schema of every query counter and histogram. */
  const QueryLabelSchema: seq<string> := [LabelDatabase, LabelDriver, LabelStatus]

  /** Label schema of every gauge. */
  const GaugeLabelSchema: seq<string> := [LabelDatabase, LabelDriver]

  function NewCounter(namespace: string, name: string): Collector {
    Collector(Id(namespace, name), CounterVec, QueryLabelSchema)
  }

  function NewHistogram(namespace: string, name: string): Collector {
    Collector(Id(namespace, name), HistogramVec, QueryLabelSchema)
  }

  function NewGauge(namespace: string, name: string): Collector {
    Collector(Id(namespace, name), GaugeVec, GaugeLabelSchema)
  }

  /** The bundle built for `namespace` before it is registered. */
  function QueryBundle(namespace: string): QueryCounters {
    QueryCounters(
      all := Some(NewCounter(namespace, AllTotal)),
      allDuration := Some(NewHistogram(namespace, AllAverageTime)),
      creates := Some(NewCounter(namespace, CreatesTotal)),
      createsDuration := Some(NewHistogram(namespace, CreatesAverageTime)),
      deletes := Some(NewCounter(namespace, DeletesTotal)),
      deletesDuration := Some(NewHistogram(namespace, DeletesAverageTime)),
      queries := Some(NewCounter(namespace, QueriesTotal)),
      queriesDuration := Some(NewHistogram(namespace, QueriesAverageTime)),
      updates := Some(NewCounter(namespace, UpdatesTotal)),
      updatesDuration := Some(NewHistogram(namespace, UpdatesAverageTime)))
  }

  /** The query bundle's collectors in the order they are registered. */
  function QueryCollectors(namespace: string): (cs: seq<Collector>)
    ensures |cs| == 10
    ensures forall i :: 0 <= i < 10 ==>
              cs[i].id == Id(namespace, QueryMetricNames()[i]) && cs[i].labelNames == QueryLabelSchema
  {
    var qc := QueryBundle(namespace);
    [qc.all.value, qc.allDuration.value, qc.creates.value, qc.createsDuration.value,
     qc.deletes.value, qc.deletesDuration.value, qc.queries.value, qc.queriesDuration.value,
     qc.updates.value, qc.updatesDuration.value]
  }

  function GaugeBundle(namespace: string): DatabaseGauges {
    DatabaseGauges(
      idle := Some(NewGauge(namespace, IdleConnections)),
      inUse := Some(NewGauge(namespace, InUseConnections)),
      open := Some(NewGauge(namespace, OpenConnections)))
  }

  /** The gauge bundle's collectors in the order they are registered. */
  function GaugeCollectors(namespace: string): (cs: seq<Collector>)
    ensures |cs| == 3
    ensures forall i :: 0 <= i < 3 ==>
              cs[i].id == Id(namespace, GaugeMetricNames()[i]) && cs[i].labelNames == GaugeLabelSchema
  {
    var dg := GaugeBundle(namespace);
    [dg.idle.value, dg.inUse.value, dg.open.value]
  }

  function Ids(cs: seq<Collector>): (ids: seq<Id>)
    ensures |ids| == |cs| && forall i :: 0 <= i < |cs| ==> ids[i] == cs[i].id
  {
    seq(|cs|, i requires 0 <= i < |cs| => cs[i].id)
  }

  function Elems<T>(s: seq<T>): set<T> {
    set x | x in s
  }

  function QueryIds(namespace: string): seq<Id> {
    Ids(QueryCollectors(namespace))
  }

  function GaugeIds(namespace: string): seq<Id> {
    Ids(GaugeCollectors(namespace))
  }

  /**
   * The index at which registering `ids` one by one, against a backend that
   * already holds `reg`, meets its first identity that is already registered
   * (by someone else or earlier in the list); `|ids|` when there is none.
   */
  function ClashIndex(reg: set<Id>, ids: seq<Id>): (k: nat)
    ensures k <= |ids|
    decreases |ids|
  {
    if ids == [] || ids[0] in reg then 0 else 1 + ClashIndex(reg + {ids[0]}, ids[1..])
  }

  /**
   * What `ClashIndex` means: the identities before it are new and distinct,
   * and the one at it, if any, is registered already or earlier in the list.
   */
  lemma {:induction false} ClashIndexMeaning(reg: set<Id>, ids: seq<Id>)
    ensures var k := ClashIndex(reg, ids);
            && (forall i :: 0 <= i < k ==> ids[i] !in reg && ids[i] !in ids[..i])
            && (k < |ids| ==> ids[k] in reg || ids[k] in ids[..k])
    decreases |ids|
  {
    if ids != [] && ids[0] !in reg {
      var k' := ClashIndex(reg + {ids[0]}, ids[1..]);
      ClashIndexMeaning(reg + {ids[0]}, ids[1..]);
      forall i | 0 < i <= k' && i < |ids| ensures ids[..i] == [ids[0]] + ids[1..][..i - 1] {}
    }
  }

  /**
   * Registers `cs` in argument order and stops at the first failure: the
   * collectors before it stay registered, the ones after it are never tried.
   */
  method RegisterCollectors(backend: Backend, cs: seq<Collector>) returns (err: Option<Error>)
    modifies backend`registered
    ensures var k := ClashIndex(old(backend.registered), Ids(cs));
            && backend.registered == old(backend.registered) + Elems(Ids(cs)[..k])
            && err == if k == |cs| then None else Some(AlreadyRegistered(cs[k].id))
  {
    ghost var reg := backend.registered;
    ghost var ids := Ids(cs);
    var i := 0;
    while i < |cs|
      invariant i <= |cs|
      invariant backend.registered == reg + Elems(ids[..i])
      invariant ClashIndex(reg, ids) == i + ClashIndex(backend.registered, ids[i..])
    {
      assert ids[i..][0] == ids[i] && ids[i..][1..] == ids[i + 1..];
      var e := backend.Register(cs[i]);
      if e.Some? {
        return e;
      }
      assert ids[..i + 1] == ids[..i] + [ids[i]];
      i := i + 1;
    }
    assert ids[..i] == ids;
    return None;
  }

  /** A clash-free registration happens exactly when no identity is registered yet. */
  lemma {:induction false} ClashFreeIffUnregistered(reg: set<Id>, ids: seq<Id>)
    requires Distinct(ids)
    ensures ClashIndex(reg, ids) == |ids| <==> forall i :: 0 <= i < |ids| ==> ids[i] !in reg
  {
    var k := ClashIndex(reg, ids);
    ClashIndexMeaning(reg, ids);
    if k < |ids| {
      assert ids[k] !in ids[..k] by {
        forall j | 0 <= j < k ensures ids[..k][j] != ids[k] {
          assert ids[..k][j] == ids[j];
        }
      }
    }
  }

  /** Distinct metric names make one namespace's identities distinct. */
  lemma QueryIdsDistinct(namespace: string)
    ensures |QueryIds(namespace)| == 10 && Distinct(QueryIds(namespace))
  {
  }

  lemma GaugeIdsDistinct(namespace: string)
    ensures |GaugeIds(namespace)| == 3 && Distinct(GaugeIds(namespace))
  {
  }

  /** One namespace's gauge identities never clash with its query identities. */
  lemma GaugeAndQueryIdsDisjoint(namespace: string, other: string)
    ensures Elems(GaugeIds(namespace)) !! Elems(QueryIds(other))
  {
  }

  /** Creating a query bundle succeeds exactly when none of its ten identities is registered. */
  lemma QueryRegistrationSucceedsIff(reg: set<Id>, namespace: string)
    ensures ClashIndex(reg, QueryIds(namespace)) == 10 <==> Elems(QueryIds(namespace)) !! reg
  {
    QueryIdsDistinct(namespace);
    ClashFreeIffUnregistered(reg, QueryIds(namespace));
  }

  lemma GaugeRegistrationSucceedsIff(reg: set<Id>, namespace: string)
    ensures ClashIndex(reg, GaugeIds(namespace)) == 3 <==> Elems(GaugeIds(namespace)) !! reg
  {
    GaugeIdsDistinct(namespace);
    ClashFreeIffUnregistered(reg, GaugeIds(namespace));
  }

  /**
   * Why the cache is needed: once a bundle's identities are registered,
   * registering them again fails on the very first one.
   */
  lemma ReregistrationFails(reg: set<Id>, ids: seq<Id>)
    requires ids != [] && Elems(ids) <= reg
    ensures ClashIndex(reg, ids) == 0
  {
  }

  /**
   * A failed creation leaves its prefix registered and caches nothing, so
   * every later attempt for that bundle fails on its first identity.
   */
  lemma RetryAfterFailureFails(reg: set<Id>, ids: seq<Id>)
    requires ClashIndex(reg, ids) < |ids|
    ensures ClashIndex(reg + Elems(ids[..ClashIndex(reg, ids)]), ids) == 0
  {
  }

  /** The process-wide cache of bundles, over the backend it registers with. */
  class Registry {
    const backend: Backend
    var query: map<string, QueryCounters>
    var database: map<string, DatabaseGauges>

    /** Every cached bundle is the one built for its namespace and is fully registered. */
    ghost predicate Valid()
      reads this, backend`registered
    {
      && (forall ns :: ns in query ==>
            query[ns] == QueryBundle(ns) && Elems(QueryIds(ns)) <= backend.registered)
      && (forall ns :: ns in database ==>
            database[ns] == GaugeBundle(ns) && Elems(GaugeIds(ns)) <= backend.registered)
    }

    constructor (backend: Backend)
      ensures this.backend == backend && query == map[] && database == map[]
      ensures Valid()
    {
      this.backend := backend;
      query, database := map[], map[];
    }

    method NewQueryCounters(namespace: string) returns (r: Result<QueryCounters, Error>)
      requires Valid()
      modifies this`query, backend`registered
      ensures Valid()
      ensures namespace in old(query) ==>
                && r == Success(old(query)[namespace])
                && query == old(query)
                && backend.registered == old(backend.registered)
      ensures namespace !in old(query) ==>
                var ids := QueryIds(namespace);
                var k := ClashIndex(old(backend.registered), ids);
                && backend.registered == old(backend.registered) + Elems(ids[..k])
                && (k == |ids| ==>
                      r == Success(QueryBundle(namespace)) && query == old(query)[namespace := QueryBundle(namespace)])
                && (k < |ids| ==>
                      r == Failure(CouldNotRegisterCollectors(AlreadyRegistered(ids[k]))) && query == old(query))
    {
      if namespace in query {
        return Success(query[namespace]);
      }
      var qc := QueryBundle(namespace);
      var err := RegisterCollectors(backend, QueryCollectors(namespace));
      if err.Some? {
        return Failure(CouldNotRegisterCollectors(err.value));
      }
      assert QueryIds(namespace)[..10] == QueryIds(namespace);
      query := query[namespace := qc];
      return Success(query[namespace]);
    }

    method NewDatabaseGauges(namespace: string) returns (r: Result<DatabaseGauges, Error>)
      requires Valid()
      modifies this`database, backend`registered
      ensures Valid()
      ensures namespace in old(database) ==>
                && r == Success(old(database)[namespace])
                && database == old(database)
                && backend.registered == old(backend.registered)
      ensures namespace !in old(database) ==>
                var ids := GaugeIds(namespace);
                var k := ClashIndex(old(backend.registered), ids);
                && backend.registered == old(backend.registered) + Elems(ids[..k])
                && (k == |ids| ==>
                      r == Success(GaugeBundle(namespace)) && database == old(database)[namespace := GaugeBundle(namespace)])
                && (k < |ids| ==>
                      r == Failure(AlreadyRegistered(ids[k])) && database == old(database))
    {
      if namespace in database {
        return Success(database[namespace]);
      }
      var dg := GaugeBundle(namespace);
      var err := RegisterCollectors(backend, GaugeCollectors(namespace));
      if err.Some? {
        return Failure(err.value);
      }
      assert GaugeIds(namespace)[..3] == GaugeIds(namespace);
      database := database[namespace := dg];
      return Success(database[namespace]);
    }
  }

  /**
   * Two requests for the same namespace: the second is served from the cache,
   * returns the same bundle and registers nothing.
   */
  method RequestTwice(registry: Registry, namespace: string)
    returns (first: Result<QueryCounters, Error>, second: Result<QueryCounters, Error>)
    requires registry.Valid()
    modifies registry`query, registry.backend`registered
    ensures registry.Valid()
    ensures first.Success? ==> second == first
    ensures first.Success? ==> registry.backend.registered == old(registry.backend.registered) + Elems(QueryIds(namespace))
  {
    first := registry.NewQueryCounters(namespace);
    ghost var afterFirst := registry.backend.registered;
    second := registry.NewQueryCounters(namespace);
    assert registry.backend.registered == afterFirst;
    if first.Success? && namespace !in old(registry.query) {
      assert QueryIds(namespace)[..10] == QueryIds(namespace);
    }
  }
}
