/**
 * The fixed vocabulary of the instrumentation: label names, the two status
 * values, and the metric names of the query bundle and the gauge bundle.
 */
module Metrics {

  // Label names.
  const LabelStatus: string := "status"
  const LabelDatabase: string := "database"
  const LabelDriver: string := "driver"

  // Values of the status label.
  const StatusFail: string := "fail"
  const StatusSuccess: string := "success"

  // Connection-pool gauges.
  const OpenConnections: string := "connections_open"
  const IdleConnections: string := "connections_idle"
  const InUseConnections: string := "connections_in_use"

  // Query counters and duration histograms.
  const AllTotal: string := "all_total"
  const AllAverageTime: string := "all_total_average_time"
  const CreatesTotal: string := "creates_total"
  const CreatesAverageTime: string := "creates_average_time"
  const DeletesTotal: string := "deletes_total"
  const DeletesAverageTime: string := "deletes_average_time"
  const QueriesTotal: string := "queries_total"
  const QueriesAverageTime: string := "queries_average_time"
  const UpdatesTotal: string := "updates_total"
  const UpdatesAverageTime: string := "updates_average_time"

  /** No element of `s` occurs twice. */
  predicate Distinct<T(==)>(s: seq<T>) {
    forall i, j :: 0 <= i < j < |s| ==> s[i] != s[j]
  }

  /** The three label names; none can shadow another in a label set. */
  function LabelNames(): (names: seq<string>)
    ensures |names| == 3 && Distinct(names)
  {
    [LabelStatus, LabelDatabase, LabelDriver]
  }

  /** The two status values, which differ from each other. */
  function StatusValues(): (values: seq<string>)
    ensures |values| == 2 && Distinct(values)
  {
    [StatusFail, StatusSuccess]
  }

  /** The ten query metric names, in the order they are registered. */
  function QueryMetricNames(): (names: seq<string>)
    ensures |names| == 10 && Distinct(names)
  {
    [AllTotal, AllAverageTime, CreatesTotal, CreatesAverageTime, DeletesTotal,
     DeletesAverageTime, QueriesTotal, QueriesAverageTime, UpdatesTotal, UpdatesAverageTime]
  }

  /** The three gauge names, in the order they are registered; none is a query metric name. */
  function GaugeMetricNames(): (names: seq<string>)
    ensures |names| == 3 && Distinct(names)
    ensures forall i, j :: 0 <= i < |names| && 0 <= j < |QueryMetricNames()| ==>
              names[i] != QueryMetricNames()[j]
  {
    [IdleConnections, InUseConnections, OpenConnections]
  }
}
