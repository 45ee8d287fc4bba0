/**
 * The callback interceptor: hooks registered on the ORM's create, delete,
 * query and update chains. A before-hook stores the start time in the
 * operation; the matching after-hook counts the operation under a status
 * label and, when a start time is stored, records the elapsed milliseconds.
 */
module Callback {
  import opened Wrappers
  import opened Metrics
  import opened Backend
  import opened Collectors

  datatype OpKind = Create | Delete | Query | Update

  /** The configuration consumed here: metric namespace and hook-name scope. */
  datatype PluginOpts = PluginOpts(prometheusNamespace: string, gormPluginScope: string)

  /** Label values fixed when the handler is built. */
  datatype ExtraInfo = ExtraInfo(dbName: string, driverName: string)

  datatype CallbackHandler = CallbackHandler(opts: PluginOpts, counters: QueryCounters, defaultLabels: Labels)

  /** The function a hook runs: the shared start-time recorder, or the after-hook of one chain. */
  datatype HookFn = StartTimeHook | AfterHook(kind: OpKind)

  /** Where a hook is placed in its chain, relative to a built-in callback. */
  datatype Placement = Before(anchor: string) | After(anchor: string)

  /** One hook registration: chain, placement, unique name and function. */
  datatype Hook = Hook(process: OpKind, placement: Placement, name: string, fn: HookFn)

  /**
   * The state of one in-flight operation that the hooks see: the start time
   * stored under "timeStart" (absent until a before-hook ran), and whether
   * asking the operation for its underlying connection handle reports an error.
   */
  class Operation {
    var timeStart: Option<int>
    const handleFails: bool

    constructor (handleFails: bool)
      ensures this.handleFails == handleFails && timeStart == None
    {
      this.handleFails := handleFails;
      timeStart := None;
    }
  }

  /** The hook name `scope:callback`. */
  function CallbackName(opts: PluginOpts, callback: string): (name: string)
    ensures |name| == |opts.gormPluginScope| + 1 + |callback|
    ensures name[..|opts.gormPluginScope|] == opts.gormPluginScope
    ensures name[|opts.gormPluginScope|] == ':'
    ensures name[|opts.gormPluginScope| + 1..] == callback
  {
    opts.gormPluginScope + ":" + callback
  }

  /** Within one scope, different callbacks get different hook names. */
  lemma CallbackNameInjective(opts: PluginOpts, x: string, y: string)
    ensures CallbackName(opts, x) == CallbackName(opts, y) ==> x == y
  {
  }

  /** The name of a chain, as it appears in hook names and built-in anchors. */
  function ChainName(kind: OpKind): (name: string)
    ensures |name| > 0
  {
    match kind
    case Create => "create"
    case Delete => "delete"
    case Query => "query"
    case Update => "update"
  }

  /** The callback part of a hook's name: `before_<chain>` or `after_<chain>`. */
  function Purpose(kind: OpKind, before: bool): string {
    (if before then "before_" else "after_") + ChainName(kind)
  }

  /** Different chains or placements give different callback parts. */
  lemma PurposeInjective(k1: OpKind, b1: bool, k2: OpKind, b2: bool)
    ensures Purpose(k1, b1) == Purpose(k2, b2) ==> k1 == k2 && b1 == b2
  {
    var p1, p2 := Purpose(k1, b1), Purpose(k2, b2);
    assert p1[0] == if b1 then 'b' else 'a';
    assert p2[0] == if b2 then 'b' else 'a';
    if b1 == b2 {
      var n := if b1 then 7 else 6;
      assert p1[n] == ChainName(k1)[0];
      assert p2[n] == ChainName(k2)[0];
    }
  }

  /**
   * The hook registered on chain `kind`: before the built-in `gorm:<chain>`
   * callback it stores the start time, after `gorm:after_<chain>` it runs the
   * chain's after-hook.
   */
  function HookFor(opts: PluginOpts, kind: OpKind, before: bool): (hook: Hook)
    ensures hook.process == kind && hook.placement.Before? == before
    ensures hook.name == CallbackName(opts, Purpose(kind, before))
    ensures hook.fn == if before then StartTimeHook else AfterHook(kind)
    ensures hook.placement.anchor == if before then "gorm:" + ChainName(kind) else "gorm:after_" + ChainName(kind)
  {
    if before then Hook(kind, Before("gorm:" + ChainName(kind)), CallbackName(opts, Purpose(kind, true)), StartTimeHook)
    else Hook(kind, After("gorm:after_" + ChainName(kind)), CallbackName(opts, Purpose(kind, false)), AfterHook(kind))
  }

  /** The chains, in the order their hooks are registered. */
  function Chains(): (kinds: seq<OpKind>)
    ensures |kinds| == 4 && Distinct(kinds)
  {
    [Create, Delete, Query, Update]
  }

  /**
   * The eight hooks a handler registers, in registration order: chain by
   * chain, the before-hook and then the after-hook.
   */
  function Callbacks(opts: PluginOpts): (hooks: seq<Hook>)
    ensures |hooks| == 8
    ensures forall i, j :: 0 <= i < j < 8 ==>
              hooks[i].process != hooks[j].process || hooks[i].placement.Before? != hooks[j].placement.Before?
    ensures forall i :: 0 <= i < 8 ==>
              hooks[i] == HookFor(opts, hooks[i].process, hooks[i].placement.Before?)
  {
    seq(8, i requires 0 <= i < 8 => HookFor(opts, Chains()[i / 2], i % 2 == 0))
  }

  /** The eight hooks are registered under eight different names. */
  lemma HookNamesDistinct(opts: PluginOpts)
    ensures forall i, j :: 0 <= i < j < |Callbacks(opts)| ==> Callbacks(opts)[i].name != Callbacks(opts)[j].name
  {
    var hooks := Callbacks(opts);
    forall i, j | 0 <= i < j < 8 ensures hooks[i].name != hooks[j].name {
      var hi, hj := hooks[i], hooks[j];
      PurposeInjective(hi.process, hi.placement.Before?, hj.process, hj.placement.Before?);
      CallbackNameInjective(opts, Purpose(hi.process, hi.placement.Before?), Purpose(hj.process, hj.placement.Before?));
    }
  }

  /** Every chain gets both its before-hook and its after-hook. */
  lemma CallbacksCoverChains(opts: PluginOpts, kind: OpKind, before: bool)
    ensures HookFor(opts, kind, before) in Callbacks(opts)
  {
    var i := match kind
      case Create => 0
      case Delete => 1
      case Query => 2
      case Update => 3;
    assert Chains()[i] == kind;
    var j := if before then 2 * i else 2 * i + 1;
    assert j / 2 == i && (j % 2 == 0) == before;
    assert Callbacks(opts)[j] == HookFor(opts, kind, before);
  }

  /** The status label value of an operation. */
  function Status(handleFails: bool): (status: string)
    ensures status == StatusFail <==> handleFails
    ensures status == StatusSuccess <==> !handleFails
  {
    if handleFails then StatusFail else StatusSuccess
  }

  /** The labels fixed at construction: driver and database. */
  function DefaultLabels(info: ExtraInfo): (labels: Labels)
    ensures labels.Keys == {LabelDriver, LabelDatabase}
    ensures labels[LabelDriver] == info.driverName && labels[LabelDatabase] == info.dbName
  {
    map[LabelDriver := info.driverName, LabelDatabase := info.dbName]
  }

  /**
   * The label set of one observation: the status, over the default labels.
   * The status always wins, so it is never shadowed.
   */
  function OperationLabels(status: string, defaults: Labels): (labels: Labels)
    ensures labels.Keys == defaults.Keys + {LabelStatus}
    ensures labels[LabelStatus] == status
    ensures forall k :: k in defaults && k != LabelStatus ==> labels[k] == defaults[k]
  {
    defaults[LabelStatus := status]
  }

  /**
   * The label set of every observation carries exactly the label names of the
   * query schema, so selecting a child of a query collector never fails.
   */
  lemma OperationLabelsMatchSchema(status: string, info: ExtraInfo)
    ensures OperationLabels(status, DefaultLabels(info)).Keys == Elems(QueryLabelSchema)
    ensures DefaultLabels(info).Keys == Elems(GaugeLabelSchema)
  {
  }

  /**
   * Merges `b` into `a`: every key of `a` keeps its value, and keys found only
   * in `b` are added with `b`'s value.
   */
  method MergeLabels(a: Labels, b: Labels) returns (r: Labels)
    ensures r.Keys == a.Keys + b.Keys
    ensures forall k :: k in a ==> r[k] == a[k]
    ensures forall k :: k in b && k !in a ==> r[k] == b[k]
  {
    r := a;
    var rest := b.Keys;
    while rest != {}
      invariant rest <= b.Keys
      invariant r.Keys == a.Keys + (b.Keys - rest)
      invariant forall k :: k in a ==> r[k] == a[k]
      invariant forall k :: k in r && k !in a ==> r[k] == b[k]
      decreases rest
    {
      var k :| k in rest;
      if k !in r {
        r := r[k := b[k]];
      }
      rest := rest - {k};
    }
  }

  /**
   * Elapsed whole milliseconds from `start` to `now` (both in nanoseconds),
   * truncated toward zero.
   */
  function ElapsedMillis(start: int, now: int): (ms: int)
    ensures now >= start ==> 0 <= ms && ms * 1000000 <= now - start < (ms + 1) * 1000000
    ensures now < start ==> ms <= 0 && (ms - 1) * 1000000 < now - start <= ms * 1000000
  {
    var d := now - start;
    if d >= 0 then d / 1000000 else -((-d) / 1000000)
  }

  /** The identities of the collectors present (non-nil) in `vs`, in order. */
  function PresentIds(vs: seq<Option<Collector>>): seq<Id>
    decreases |vs|
  {
    if vs == [] then []
    else PresentIds(vs[..|vs| - 1]) + (if vs[|vs| - 1].Some? then [vs[|vs| - 1].value.id] else [])
  }

  /** Stores the start time of the operation. */
  method SetStartTime(op: Operation, now: int)
    modifies op
    ensures op.timeStart == Some(now)
  {
    op.timeStart := Some(now);
  }

  /**
   * The label set an after-hook builds: the operation's status merged over
   * the handler's default labels.
   */
  method StatusLabels(h: CallbackHandler, op: Operation) returns (labels: Labels)
    ensures labels == OperationLabels(Status(op.handleFails), h.defaultLabels)
    ensures labels[LabelStatus] == Status(op.handleFails)
  {
    var status := Status(op.handleFails);
    labels := MergeLabels(map[LabelStatus := status], h.defaultLabels);
    var expected := OperationLabels(status, h.defaultLabels);
    assert labels.Keys == expected.Keys;
    forall k | k in labels ensures labels[k] == expected[k] {
      if k != LabelStatus {
        assert k in h.defaultLabels;
      }
    }
  }

  /**
   * Counters `after` hold exactly one more increment under `labels` than
   * `before` for each occurrence of an identity in `ids`, and nothing else differs.
   */
  ghost predicate Incremented(after: map<(Id, Labels), nat>, before: map<(Id, Labels), nat>, labels: Labels, ids: seq<Id>) {
    forall key {:trigger Count(after, key)} ::
      Count(after, key) == Count(before, key) + (if key.1 == labels then multiset(ids)[key.0] else 0)
  }

  /**
   * Histograms `after` hold, under `labels`, one more observation of `v` than
   * `before` for each occurrence of an identity in `ids`, and nothing else differs.
   */
  ghost predicate Observed(after: map<(Id, Labels), multiset<int>>, before: map<(Id, Labels), multiset<int>>,
                           labels: Labels, v: int, ids: seq<Id>) {
    forall key, x {:trigger Observations(after, key)[x]} :: Observations(after, key)[x] ==
      Observations(before, key)[x] + (if key.1 == labels && x == v then multiset(ids)[key.0] else 0)
  }

  /** The counters after adding one to the child of `c` selected by `labels`, or unchanged when `c` is nil. */
  function IncrementOne(m: map<(Id, Labels), nat>, c: Option<Collector>, labels: Labels): map<(Id, Labels), nat> {
    if c.Some? then m[(c.value.id, labels) := Count(m, (c.value.id, labels)) + 1] else m
  }

  /** The counters after incrementing each collector of `cs` in turn. */
  function IncrementEach(m: map<(Id, Labels), nat>, cs: seq<Option<Collector>>, labels: Labels): map<(Id, Labels), nat>
    decreases |cs|
  {
    if cs == [] then m else IncrementOne(IncrementEach(m, cs[..|cs| - 1], labels), cs[|cs| - 1], labels)
  }

  /** The histograms after observing `v` on the child of `c` selected by `labels`, or unchanged when `c` is nil. */
  function ObserveOne(m: map<(Id, Labels), multiset<int>>, c: Option<Collector>, labels: Labels, v: int): map<(Id, Labels), multiset<int>> {
    if c.Some? then m[(c.value.id, labels) := Observations(m, (c.value.id, labels)) + multiset{v}] else m
  }

  /** The histograms after observing `v` on each collector of `cs` in turn. */
  function ObserveEach(m: map<(Id, Labels), multiset<int>>, cs: seq<Option<Collector>>, labels: Labels, v: int): map<(Id, Labels), multiset<int>>
    decreases |cs|
  {
    if cs == [] then m else ObserveOne(ObserveEach(m, cs[..|cs| - 1], labels, v), cs[|cs| - 1], labels, v)
  }

  /** One child's counter after incrementing each collector of `cs` in turn. */
  lemma {:induction false} IncrementEachAt(m: map<(Id, Labels), nat>, cs: seq<Option<Collector>>, labels: Labels, key: (Id, Labels))
    ensures Count(IncrementEach(m, cs, labels), key) ==
            Count(m, key) + (if key.1 == labels then multiset(PresentIds(cs))[key.0] else 0)
    decreases |cs|
  {
    if cs != [] {
      var init, last := cs[..|cs| - 1], cs[|cs| - 1];
      IncrementEachAt(m, init, labels, key);
      var mid := IncrementEach(m, init, labels);
      assert IncrementEach(m, cs, labels) == IncrementOne(mid, last, labels);
      IncrementOneAt(mid, last, labels, key);
      PresentCountLast(cs, key.0);
    }
  }

  /**
   * Incrementing each collector of `cs` adds, under `labels`, as many units to
   * an identity as it has non-nil occurrences in `cs`, and changes nothing else.
   */
  lemma IncrementEachCounts(m: map<(Id, Labels), nat>, cs: seq<Option<Collector>>, labels: Labels)
    ensures Incremented(IncrementEach(m, cs, labels), m, labels, PresentIds(cs))
  {
    forall key {
      IncrementEachAt(m, cs, labels, key);
    }
  }

  /** How often `id` is present in `cs`, counted from the count in all but its last element. */
  lemma PresentCountLast(cs: seq<Option<Collector>>, id: Id)
    requires cs != []
    ensures multiset(PresentIds(cs))[id] ==
            multiset(PresentIds(cs[..|cs| - 1]))[id] + (if cs[|cs| - 1].Some? && cs[|cs| - 1].value.id == id then 1 else 0)
  {
  }

  /** One child's observations after the last observation of a run. */
  lemma ObserveEachLast(m: map<(Id, Labels), multiset<int>>, cs: seq<Option<Collector>>, labels: Labels, v: int, key: (Id, Labels))
    requires cs != []
    ensures Observations(ObserveEach(m, cs, labels, v), key) ==
            Observations(ObserveEach(m, cs[..|cs| - 1], labels, v), key) +
            (if cs[|cs| - 1].Some? && key == (cs[|cs| - 1].value.id, labels) then multiset{v} else multiset{})
  {
  }

  /** One child's observations after observing `v` on each collector of `cs` in turn. */
  lemma {:induction false} ObserveEachAt(m: map<(Id, Labels), multiset<int>>, cs: seq<Option<Collector>>, labels: Labels, v: int,
                                         key: (Id, Labels), x: int)
    ensures Observations(ObserveEach(m, cs, labels, v), key)[x] ==
            Observations(m, key)[x] + (if key.1 == labels && x == v then multiset(PresentIds(cs))[key.0] else 0)
    decreases |cs|
  {
    if cs != [] {
      ObserveEachLast(m, cs, labels, v, key);
      PresentCountLast(cs, key.0);
      ObserveEachAt(m, cs[..|cs| - 1], labels, v, key, x);
    }
  }

  /**
   * Observing `v` on each collector of `cs` records, under `labels`, one `v`
   * per non-nil occurrence of an identity in `cs`, and changes nothing else.
   */
  lemma ObserveEachRecords(m: map<(Id, Labels), multiset<int>>, cs: seq<Option<Collector>>, labels: Labels, v: int)
    ensures Observed(ObserveEach(m, cs, labels, v), m, labels, v, PresentIds(cs))
  {
    forall key, x {
      ObserveEachAt(m, cs, labels, v, key, x);
    }
  }

  /** The effect of one increment on the counter of one child. */
  lemma IncrementOneAt(m: map<(Id, Labels), nat>, c: Option<Collector>, labels: Labels, key: (Id, Labels))
    ensures Count(IncrementOne(m, c, labels), key) ==
            Count(m, key) + (if c.Some? && key == (c.value.id, labels) then 1 else 0)
  {
  }

  /** The effect of one observation on the observations of one child. */
  lemma ObserveOneAt(m: map<(Id, Labels), multiset<int>>, c: Option<Collector>, labels: Labels, v: int, key: (Id, Labels))
    ensures Observations(ObserveOne(m, c, labels, v), key) ==
            Observations(m, key) + (if c.Some? && key == (c.value.id, labels) then multiset{v} else multiset{})
  {
  }

  /** Increments, under `labels`, every non-nil counter among `cs`. */
  method IncrementAll(backend: Backend, cs: seq<Option<Collector>>, labels: Labels)
    modifies backend`counters
    ensures backend.counters == IncrementEach(old(backend.counters), cs, labels)
  {
    var i := 0;
    while i < |cs|
      invariant 0 <= i <= |cs|
      invariant backend.counters == IncrementEach(old(backend.counters), cs[..i], labels)
    {
      assert cs[..i + 1][..i] == cs[..i];
      if cs[i].Some? {
        backend.Inc(cs[i].value, labels);
      }
      i := i + 1;
    }
    assert cs[..i] == cs;
  }

  /**
   * Observes the elapsed time, under `labels`, on every non-nil histogram
   * among `cs` when `timeStart` holds a start time, and on none otherwise.
   */
  method ObserveAll(backend: Backend, cs: seq<Option<Collector>>, labels: Labels, timeStart: Option<int>, now: int)
    modifies backend`histograms
    ensures timeStart.None? ==> backend.histograms == old(backend.histograms)
    ensures timeStart.Some? ==>
              backend.histograms == ObserveEach(old(backend.histograms), cs, labels, ElapsedMillis(timeStart.value, now))
  {
    var i := 0;
    while i < |cs|
      invariant 0 <= i <= |cs|
      invariant timeStart.None? ==> backend.histograms == old(backend.histograms)
      invariant timeStart.Some? ==>
                  backend.histograms == ObserveEach(old(backend.histograms), cs[..i], labels, ElapsedMillis(timeStart.value, now))
    {
      assert cs[..i + 1][..i] == cs[..i];
      if cs[i].Some? {
        if timeStart.Some? {
          backend.Observe(cs[i].value, labels, ElapsedMillis(timeStart.value, now));
        }
      }
      i := i + 1;
    }
    assert cs[..i] == cs;
  }

  /**
   * Adds 1, under the operation's labels, to every non-nil counter among
   * `vectors` and the aggregate counter; nothing else changes.
   */
  method UpdateCounterVectors(h: CallbackHandler, op: Operation, vectors: seq<Option<Collector>>, backend: Backend)
    modifies backend`counters
    ensures Incremented(backend.counters, old(backend.counters),
                        OperationLabels(Status(op.handleFails), h.defaultLabels),
                        PresentIds(vectors + [h.counters.all]))
  {
    var labels := StatusLabels(h, op);
    IncrementAll(backend, vectors + [h.counters.all], labels);
    IncrementEachCounts(old(backend.counters), vectors + [h.counters.all], labels);
  }

  /**
   * When a start time is stored, records the elapsed milliseconds, under the
   * operation's labels, on every non-nil histogram among `vectors` and the
   * aggregate histogram; when none is stored, records nothing.
   */
  method UpdateHistogramVectors(h: CallbackHandler, op: Operation, now: int, vectors: seq<Option<Collector>>, backend: Backend)
    modifies backend`histograms
    ensures op.timeStart.None? ==> backend.histograms == old(backend.histograms)
    ensures op.timeStart.Some? ==>
              Observed(backend.histograms, old(backend.histograms),
                       OperationLabels(Status(op.handleFails), h.defaultLabels),
                       ElapsedMillis(op.timeStart.value, now),
                       PresentIds(vectors + [h.counters.allDuration]))
  {
    var labels := StatusLabels(h, op);
    ObserveAll(backend, vectors + [h.counters.allDuration], labels, op.timeStart, now);
    if op.timeStart.Some? {
      ObserveEachRecords(old(backend.histograms), vectors + [h.counters.allDuration], labels,
                         ElapsedMillis(op.timeStart.value, now));
    }
  }

  /** The operation counter of one chain in a bundle. */
  function KindCounter(qc: QueryCounters, kind: OpKind): Option<Collector> {
    match kind
    case Create => qc.creates
    case Delete => qc.deletes
    case Query => qc.queries
    case Update => qc.updates
  }

  /** The duration histogram of one chain in a bundle. */
  function KindDuration(qc: QueryCounters, kind: OpKind): Option<Collector> {
    match kind
    case Create => qc.createsDuration
    case Delete => qc.deletesDuration
    case Query => qc.queriesDuration
    case Update => qc.updatesDuration
  }

  /** The metric name of one chain's operation counter. */
  function TotalName(kind: OpKind): string {
    match kind
    case Create => CreatesTotal
    case Delete => DeletesTotal
    case Query => QueriesTotal
    case Update => UpdatesTotal
  }

  /** The metric name of one chain's duration histogram. */
  function DurationName(kind: OpKind): string {
    match kind
    case Create => CreatesAverageTime
    case Delete => DeletesAverageTime
    case Query => QueriesAverageTime
    case Update => UpdatesAverageTime
  }

  /**
   * The after-hook of chain `kind` (`afterCreate`, `afterDelete`,
   * `afterQuery`, `afterUpdate`): counts the operation on the chain's counter
   * and the aggregate counter, then records its duration on the chain's
   * histogram and the aggregate histogram.
   */
  method AfterOperation(h: CallbackHandler, kind: OpKind, op: Operation, now: int, backend: Backend)
    modifies backend`counters, backend`histograms
    ensures Incremented(backend.counters, old(backend.counters),
                        OperationLabels(Status(op.handleFails), h.defaultLabels),
                        PresentIds([KindCounter(h.counters, kind), h.counters.all]))
    ensures op.timeStart.None? ==> backend.histograms == old(backend.histograms)
    ensures op.timeStart.Some? ==>
              Observed(backend.histograms, old(backend.histograms),
                       OperationLabels(Status(op.handleFails), h.defaultLabels),
                       ElapsedMillis(op.timeStart.value, now),
                       PresentIds([KindDuration(h.counters, kind), h.counters.allDuration]))
  {
    assert [KindCounter(h.counters, kind)] + [h.counters.all] == [KindCounter(h.counters, kind), h.counters.all];
    assert [KindDuration(h.counters, kind)] + [h.counters.allDuration] == [KindDuration(h.counters, kind), h.counters.allDuration];
    UpdateCounterVectors(h, op, [KindCounter(h.counters, kind)], backend);
    UpdateHistogramVectors(h, op, now, [KindDuration(h.counters, kind)], backend);
  }

  /**
   * With the registered bundle, the after-hook of `kind` counts once on its own
   * counter and once on the aggregate, and on no other chain's counter.
   */
  lemma AfterCountsOwnChain(namespace: string, kind: OpKind, id: Id)
    ensures var qc := QueryBundle(namespace);
            multiset(PresentIds([KindCounter(qc, kind), qc.all]))[id] ==
            if id == Id(namespace, TotalName(kind)) || id == Id(namespace, AllTotal) then 1 else 0
  {
    var qc := QueryBundle(namespace);
    var ids := PresentIds([KindCounter(qc, kind), qc.all]);
    assert KindCounter(qc, kind) == Some(NewCounter(namespace, TotalName(kind)));
    assert [KindCounter(qc, kind), qc.all][..1] == [KindCounter(qc, kind)];
    assert [KindCounter(qc, kind)][..0] == [];
    assert PresentIds([KindCounter(qc, kind)]) == [Id(namespace, TotalName(kind))];
    assert ids == [Id(namespace, TotalName(kind)), Id(namespace, AllTotal)];
  }

  /**
   * With the registered bundle, the after-hook of `kind` records once on its own
   * histogram and once on the aggregate, and on no other chain's histogram.
   */
  lemma AfterTimesOwnChain(namespace: string, kind: OpKind, id: Id)
    ensures var qc := QueryBundle(namespace);
            multiset(PresentIds([KindDuration(qc, kind), qc.allDuration]))[id] ==
            if id == Id(namespace, DurationName(kind)) || id == Id(namespace, AllAverageTime) then 1 else 0
  {
    var qc := QueryBundle(namespace);
    var ids := PresentIds([KindDuration(qc, kind), qc.allDuration]);
    assert KindDuration(qc, kind) == Some(NewHistogram(namespace, DurationName(kind)));
    assert [KindDuration(qc, kind), qc.allDuration][..1] == [KindDuration(qc, kind)];
    assert [KindDuration(qc, kind)][..0] == [];
    assert PresentIds([KindDuration(qc, kind)]) == [Id(namespace, DurationName(kind))];
    assert ids == [Id(namespace, DurationName(kind)), Id(namespace, AllAverageTime)];
  }

  /**
   * Builds a handler for `opts` and `info`, fetching (and on first use
   * registering) the query counters of the configured namespace.
   */
  method NewCallbackHandler(info: ExtraInfo, opts: PluginOpts, registry: Registry) returns (r: Result<CallbackHandler, Error>)
    requires registry.Valid()
    modifies registry`query, registry.backend`registered
    ensures registry.Valid()
    ensures r.Success? ==> r.value == CallbackHandler(opts, QueryBundle(opts.prometheusNamespace), DefaultLabels(info))
    ensures var ids := QueryIds(opts.prometheusNamespace);
            var k := ClashIndex(old(registry.backend.registered), ids);
            r.Failure? <==> opts.prometheusNamespace !in old(registry.query) && k < |ids|
    ensures var ids := QueryIds(opts.prometheusNamespace);
            var k := ClashIndex(old(registry.backend.registered), ids);
            r.Failure? ==> r.error == CouldNotCreateQueryCounters(CouldNotRegisterCollectors(AlreadyRegistered(ids[k])))
    ensures opts.prometheusNamespace in old(registry.query) ==>
              registry.query == old(registry.query) && registry.backend.registered == old(registry.backend.registered)
    ensures opts.prometheusNamespace !in old(registry.query) ==>
              var ns := opts.prometheusNamespace;
              var ids := QueryIds(ns);
              var k := ClashIndex(old(registry.backend.registered), ids);
              && registry.backend.registered == old(registry.backend.registered) + Elems(ids[..k])
              && (r.Success? ==> registry.query == old(registry.query)[ns := QueryBundle(ns)])
              && (r.Failure? ==> registry.query == old(registry.query))
  {
    var counters := registry.NewQueryCounters(opts.prometheusNamespace);
    if counters.Failure? {
      return Failure(CouldNotCreateQueryCounters(counters.error));
    }
    r := Success(CallbackHandler(opts, counters.value, DefaultLabels(info)));
  }

  /**
   * One operation on chain `kind` as the ORM runs it: a fresh operation whose
   * underlying handle reports an error exactly when `handleFails`, the
   * chain's before-hook at time `start`, then its after-hook at time `end`.
   */
  method Perform(h: CallbackHandler, kind: OpKind, handleFails: bool, start: int, end: int, backend: Backend)
    returns (op: Operation)
    modifies backend`counters, backend`histograms
    ensures fresh(op) && op.handleFails == handleFails && op.timeStart == Some(start)
    ensures Incremented(backend.counters, old(backend.counters),
                        OperationLabels(Status(handleFails), h.defaultLabels),
                        PresentIds([KindCounter(h.counters, kind), h.counters.all]))
    ensures Observed(backend.histograms, old(backend.histograms),
                     OperationLabels(Status(handleFails), h.defaultLabels),
                     ElapsedMillis(start, end),
                     PresentIds([KindDuration(h.counters, kind), h.counters.allDuration]))
  {
    op := new Operation(handleFails);
    SetStartTime(op, start);
    AfterOperation(h, kind, op, end, backend);
  }

  /**
   * Two handlers built for the same options: once the first succeeds, the
   * second succeeds with the same bundle, registers nothing and leaves every
   * other cached namespace in place.
   */
  method BuildTwice(info: ExtraInfo, opts: PluginOpts, registry: Registry, other: string)
    returns (first: Result<CallbackHandler, Error>, second: Result<CallbackHandler, Error>)
    requires registry.Valid()
    modifies registry`query, registry.backend`registered
    ensures registry.Valid()
    ensures first.Success? ==> second == first
    ensures other in old(registry.query) ==> other in registry.query && registry.query[other] == old(registry.query)[other]
  {
    first := NewCallbackHandler(info, opts, registry);
    second := NewCallbackHandler(info, opts, registry);
  }
}
