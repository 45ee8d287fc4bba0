# gormetrics — a Dafny model of the query instrumentation

gormetrics exports Prometheus metrics for a GORM database handle. This
project models its core in Dafny:

- **Collectors** (`collectors.dfy`, after `collectors.go`): the
  process-wide registry of collector bundles, cached per namespace.
  - A namespace's first request builds the query bundle (ten collectors:
    an operation counter and a duration histogram for all operations and
    for each of create, delete, query and update) or the gauge bundle
    (idle, in-use and open connections).
  - That first request registers the bundle's collectors one by one and
    stops at the first registration that fails. It caches the bundle only
    when all of them succeed.
  - Later requests for that namespace return the cached bundle and
    register nothing.
- **Callback** (`callback.dfy`, after `callback.go`): the callback handler.
  - It registers eight hooks, a before-hook and an after-hook on each of
    the ORM's create, delete, query and update chains. Each is named
    `<scope>:<before|after>_<chain>`.
  - A before-hook stores the operation's start time.
  - An after-hook builds the label set from the status (`fail` when asking
    the operation for its underlying handle reports an error, `success`
    otherwise) merged over the handler's fixed `database` and `driver`
    labels.
  - It then adds one to the chain's counter and to the aggregate counter.
  - When a start time is stored, it also records the elapsed whole
    milliseconds on the chain's histogram and on the aggregate histogram.
    Collectors that are absent (nil) are skipped.
- **Metrics** (`metrics.dfy`, after `metrics.go`): the label names, status
  values and metric names.
- **Backend** (`backend.dfy`): the part of the Prometheus client the core
  uses.
  - A set of registered collector identities; registering one that is
    already present fails.
  - One counter value per (collector, label set) child.
  - The multiset of observed values per histogram child. A histogram keeps
    no order of its observations.
- **Wrappers** (`wrappers.dfy`): `Option` and `Result` for Go's nil
  pointers and `(value, error)` returns.

A collector's identity is its namespace together with its metric name.
The global registry is a `Registry` object over one `Backend`. Its cache
maps are fields that its methods update. The in-flight operation the hooks
see is an `Operation` object holding the stored start time.

The bundle fields hold the histograms. `collectors.go` declares them as
`allAverageTime`, `createsAverageTime` and so on. `callback.go` reads them
as `allDuration`, `createsDuration` and so on. The model takes these as the
same fields and uses the second spelling.

## Model

| member | source | states |
|---|---|---|
| Metrics.LabelNames | metrics.go:18-20 | The three label names are pairwise different. |
| Metrics.StatusValues | metrics.go:23-24 | The two status values differ. |
| Metrics.QueryMetricNames | metrics.go:34-43 | The ten query metric names are pairwise different. |
| Metrics.GaugeMetricNames | metrics.go:26-28 | The three gauge names are pairwise different and differ from every query metric name. |
| Backend.Backend.Register | collectors.go:155 | Registering an identity already present fails with `AlreadyRegistered`, otherwise succeeds; either way the identity is registered afterwards. |
| Backend.Backend.Inc | callback.go:126 | The child selected by the collector and labels goes up by one; every other child is unchanged. |
| Backend.Backend.Observe | callback.go:160 | The child selected by the collector and labels gains one observation of the value; every other child is unchanged. |
| Collectors.QueryCollectors | collectors.go:60-89 | The query bundle is ten collectors, in registration order, named after the ten query metrics in the namespace, each with the label schema database, driver, status. |
| Collectors.GaugeCollectors | collectors.go:125-137 | The gauge bundle is three collectors, idle, in-use and open, in the namespace, each with the label schema database, driver. |
| Collectors.ClashIndexMeaning | collectors.go:153-162 | Every identity before the stopping point is new (neither registered nor earlier in the list), and the one at it is registered or earlier in the list. |
| Collectors.RegisterCollectors | collectors.go:153-162 | Registration goes in argument order and stops at the first failure: exactly the identities before it are added, and the result is that failure, or none when every registration succeeded. |
| Collectors.ClashFreeIffUnregistered | collectors.go:153-162 | For distinct identities, registration runs to the end if and only if none of them is registered yet. |
| Collectors.QueryIdsDistinct | collectors.go:78-89 | The ten identities of one namespace's query bundle are pairwise different, so the bundle never clashes with itself. |
| Collectors.GaugeIdsDistinct | collectors.go:133-137 | The three gauge identities of one namespace are pairwise different. |
| Collectors.GaugeAndQueryIdsDisjoint | collectors.go:133-137 | No gauge identity of one namespace equals any query identity of any namespace, so the two bundles never block each other. |
| Collectors.QueryRegistrationSucceedsIff | collectors.go:91-104 | Registering the query bundle succeeds if and only if none of its ten identities is registered. |
| Collectors.GaugeRegistrationSucceedsIff | collectors.go:139-145 | Registering the gauge bundle succeeds if and only if none of its three identities is registered. |
| Collectors.ReregistrationFails | collectors.go:31-32 | Registering identities that are all registered already fails at the first one, which is why bundles are cached. |
| Collectors.RetryAfterFailureFails | collectors.go:91-106 | After a failed bundle creation the identities registered before the failure stay registered, so a retry for that bundle fails at its first identity. |
| Collectors.Registry.constructor | collectors.go:33-36 | The registry starts with both caches empty, over the given backend, and satisfies its invariant. |
| Collectors.Registry.NewQueryCounters | collectors.go:52-109 | A cached namespace returns its bundle and registers nothing. Otherwise the collectors up to the first clash are registered. With no clash, the fresh bundle is cached and returned. With a clash, the error wraps that clash as "could not register collectors" and nothing is cached. The invariant is kept: every cached bundle is the namespace's bundle, with all its identities registered. |
| Collectors.Registry.NewDatabaseGauges | collectors.go:117-150 | The same for the gauge bundle, except that the registration error is returned unwrapped. |
| Collectors.RequestTwice | collectors.go:56-58 | A second request for a namespace whose first request succeeded returns the same bundle; over both calls only that bundle's ten identities are registered. |
| Callback.CallbackName | callback.go:196-198 | The hook name is the scope, a colon, then the callback name. |
| Callback.CallbackNameInjective | callback.go:196-198 | Within one scope, different callback names give different hook names. |
| Callback.PurposeInjective | callback.go:38-76 | Different chains or placements give different `before_<chain>` / `after_<chain>` callback names. |
| Callback.HookFor | callback.go:38-76 | Each chain's before-hook stores the start time, is anchored before `gorm:<chain>`, and is named `before_<chain>`. Its after-hook runs the chain's after-hook, is anchored after `gorm:after_<chain>`, and is named `after_<chain>`. |
| Callback.Callbacks | callback.go:35-77 | Eight hooks are registered. No two share both chain and placement. Each is its chain's hook for its placement. |
| Callback.HookNamesDistinct | callback.go:35-77 | The eight hooks have eight different names. |
| Callback.CallbacksCoverChains | callback.go:35-77 | Every chain gets both its before-hook and its after-hook. |
| Callback.Status | callback.go:111-115 | The status is `fail` exactly when the handle request reports an error, and `success` exactly when it does not. |
| Callback.DefaultLabels | callback.go:187-190 | The handler's fixed labels are exactly `driver` and `database`, with the driver and database names. |
| Callback.OperationLabels | callback.go:117-119 | An operation's labels are the default keys plus `status`; `status` holds the status and every other key keeps its default. |
| Callback.OperationLabelsMatchSchema | callback.go:117-126 | An operation's label names are exactly the query collectors' schema, and the default label names exactly the gauge schema, so selecting a child never fails. |
| Callback.MergeLabels | callback.go:200-209 | The merge holds the keys of both maps; a key of the first map keeps its value, and a key only in the second takes the second's value. |
| Callback.ElapsedMillis | callback.go:159 | The elapsed whole milliseconds between two nanosecond instants, truncated toward zero for either sign of the difference. |
| Callback.SetStartTime | callback.go:79-81 | The before-hook stores the given time as the operation's start time. |
| Callback.StatusLabels | callback.go:111-119 | The merged label set an after-hook builds equals the operation's labels for its status. |
| Callback.IncrementOneAt | callback.go:121-127 | One increment changes only the selected child, by one, and skips an absent counter. |
| Callback.IncrementEachAt | callback.go:121-127 | After incrementing a list of counters, each child has grown, under the given labels, by the number of present occurrences of its collector in the list; other children are unchanged. |
| Callback.IncrementEachCounts | callback.go:121-127 | The same for all children at once. |
| Callback.ObserveOneAt | callback.go:148-161 | One observation changes only the selected child, by one value, and skips an absent histogram. |
| Callback.ObserveEachAt | callback.go:148-161 | After observing a value on a list of histograms, under the given labels each child holds that value once more for each present occurrence of its collector in the list. No other value and no other child changes. |
| Callback.ObserveEachRecords | callback.go:148-161 | The same for all children and values at once. |
| Callback.IncrementAll | callback.go:121-127 | The loop over the counters, skipping absent ones, leaves the counters as incrementing each present one in turn would. |
| Callback.ObserveAll | callback.go:148-161 | With a start time, the loop over the histograms leaves them as observing the elapsed time on each present one in turn would. Without one, nothing is recorded. |
| Callback.UpdateCounterVectors | callback.go:108-128 | Every present counter among the given ones and the aggregate counter gains one, under the status and default labels; nothing else changes. |
| Callback.UpdateHistogramVectors | callback.go:135-162 | With a stored start time, every present histogram among the given ones and the aggregate histogram gains one observation of the elapsed milliseconds, under the status and default labels. Without one, no histogram changes. |
| Callback.AfterOperation | callback.go:83-101 | A chain's after-hook counts on the chain's counter and the aggregate counter, and records on the chain's histogram and the aggregate histogram. |
| Callback.AfterCountsOwnChain | callback.go:83-101 | With the registered bundle, a chain's after-hook adds exactly one to its own counter and one to the aggregate counter, and nothing to any other counter. |
| Callback.AfterTimesOwnChain | callback.go:83-101 | With the registered bundle, a chain's after-hook records exactly once on its own histogram and once on the aggregate histogram, and on no other histogram. |
| Callback.NewCallbackHandler | callback.go:178-192 | The handler carries the namespace's query bundle and the fixed labels. It fails exactly when the bundle is not cached and its registration clashes; on failure the result wraps the registry's error once more. A cached namespace leaves the cache and the registered identities unchanged. Otherwise the identities up to the first clash are registered, and the bundle is cached on success and nothing on failure. |
| Callback.BuildTwice | callback.go:178-183 | Once a handler is built for some options, a second build for the same options returns the same handler; every namespace cached before keeps its bundle. |
| Callback.Perform | callback.go:79-101 | An operation that runs its chain's before-hook and then its after-hook is counted once on its chain and on the aggregate. It is timed with the elapsed milliseconds between the two hooks. |

## Left out

- plugin.go is not part of this model. That covers the nil-handle check, the driver-name lookup, option defaults, the call order of handler creation and hook registration, and the connection-pool poller that sets the gauges. The gauge bundle is modelled up to its creation and registration only.
- The registry's mutex is left out. The model is sequential, and each registry method runs as one atomic step, which is what the lock guarantees.
- Help strings are left out, and so is how Prometheus joins namespace and name into one metric name. A collector is identified by the (namespace, name) pair.
- Error messages are left out. Errors are a datatype whose constructors stand for the wrapping done by the source.
- The ORM's hook-chain machinery is left out. Placing hooks relative to the built-in anchors and running them is modelled only as the registrations `Callbacks` returns and the sequence `Perform` runs.
- Histogram observations are integers. The conversion of the elapsed milliseconds to a floating-point number, and bucketing, are left out.
- The clock is a parameter, an instant in nanoseconds. Saturation of the Go duration type on overflow is not modelled.
- A start time of a type other than a time value is not modelled. The source would panic on it.
- Selecting a child with a label set that does not fit the collector's schema panics in the Prometheus client. The model does not model the panic. `Callback.OperationLabelsMatchSchema` proves instead that it cannot happen.
- Callback.UpdateHistogramVectors: reads the clock once per call, whereas the source reads it again for each histogram. So the model's observations in one call are all equal, where the source's may differ by the time between reads.
- Callback.MergeLabels: returns a new map, whereas the source writes into its first argument and returns it. Every caller passes a fresh map, so no other state can observe the difference.
- The source's doc comments on the update functions say the status comes from the errors the handle has collected. The code uses only whether asking for the underlying handle reports an error. The model follows the code.
- Backend.Backend.Register: fails only on an identity that is already registered. The Prometheus client also rejects a collector whose descriptor is invalid, for example a namespace that makes the metric name contain a character outside the allowed set. In the source the bundle creation then fails at its first collector with nothing registered; the model does not capture that failure. `Collectors.QueryRegistrationSucceedsIff`, `Collectors.GaugeRegistrationSucceedsIff` and the failure condition of `Callback.NewCallbackHandler` hold for namespaces that give valid metric names.
- Backend.Backend.Inc: counters are unbounded naturals. Prometheus counters are 64-bit floating point, so adding one stops being exact above 2 to the power 53; that loss of precision is not modelled.
- Callback.Operation: one flag stands for the result of asking the operation for its underlying handle. The source asks twice per after-hook, once for the counters (callback.go:111) and once for the histograms (callback.go:138); the model assumes both answers agree.
