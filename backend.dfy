/**
 * An abstract metrics backend standing in for the Prometheus default
 * registry: the set of registered collector identities, and the values that
 * counters and histograms have accumulated under each label set.
 */
module Backend {
  import opened Wrappers

  /** A label set: label name to label value. */
  type Labels = map<string, string>

  /** The identity of a collector: its namespace and its metric name. */
  datatype Id = Id(namespace: string, name: string)

  datatype VecKind = CounterVec | HistogramVec | GaugeVec

  /** A collector vector: its identity, its kind and its label-name schema. */
  datatype Collector = Collector(id: Id, kind: VecKind, labelNames: seq<string>)

  /** Errors of registration, and the contexts they are wrapped in. */
  datatype Error =
    | AlreadyRegistered(id: Id)
    | CouldNotRegisterCollectors(cause: Error)
    | CouldNotCreateQueryCounters(cause: Error)

  /** The value of counter `key`; a child that was never incremented reads as 0. */
  function Count(m: map<(Id, Labels), nat>, key: (Id, Labels)): nat {
    if key in m then m[key] else 0
  }

  /**
   * The observations recorded by histogram child `key`; a histogram keeps no
   * order, only how often each value was observed.
   */
  function Observations(m: map<(Id, Labels), multiset<int>>, key: (Id, Labels)): multiset<int> {
    if key in m then m[key] else multiset{}
  }

  class Backend {
    var registered: set<Id>
    var counters: map<(Id, Labels), nat>
    var histograms: map<(Id, Labels), multiset<int>>

    constructor ()
      ensures registered == {} && counters == map[] && histograms == map[]
    {
      registered, counters, histograms := {}, map[], map[];
    }

    /** Registering an identity twice is an error; otherwise the identity is added. */
    method Register(c: Collector) returns (err: Option<Error>)
      modifies this`registered
      ensures err == if c.id in old(registered) then Some(AlreadyRegistered(c.id)) else None
      ensures registered == old(registered) + {c.id}
    {
      if c.id in registered {
        err := Some(AlreadyRegistered(c.id));
      } else {
        registered := registered + {c.id};
        err := None;
      }
    }

    /** Adds one to the child of `c` selected by `labels`. */
    method Inc(c: Collector, labels: Labels)
      modifies this`counters
      ensures counters == old(counters)[(c.id, labels) := Count(old(counters), (c.id, labels)) + 1]
    {
      counters := counters[(c.id, labels) := Count(counters, (c.id, labels)) + 1];
    }

    /** Records one observation of `v` on the child of `c` selected by `labels`. */
    method Observe(c: Collector, labels: Labels, v: int)
      modifies this`histograms
      ensures histograms == old(histograms)[(c.id, labels) := Observations(old(histograms), (c.id, labels)) + multiset{v}]
    {
      histograms := histograms[(c.id, labels) := Observations(histograms, (c.id, labels)) + multiset{v}];
    }
  }
}
