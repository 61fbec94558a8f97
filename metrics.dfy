/**
 One metric data point and append_metric, which builds it from an event and
 appends it to the caller's list only when its value is positive.
 */
module Metrics {
  import opened Wrappers
  import opened Events

  /** A `{Name, Value}` dimension of a data point. */
  datatype Dimension = Dimension(name: string, value: string)

  datatype StandardUnit = Seconds | Count

  /** One element of `MetricData`; the timestamp is the event time. */
  datatype Datum = Datum(metricName: string, dimensions: seq<Dimension>, timestamp: int, value: int, unit: StandardUnit)

  const PipelineName := "PipelineName"
  const StageName := "StageName"
  const ActionName := "ActionName"

  /** d is one of the three dimensions, carrying the value of the detail key it comes from. */
  predicate FromDetail(d: Dimension, detail: map<string, string>)
  {
    || (d.name == PipelineName && "pipeline" in detail && d.value == detail["pipeline"])
    || (d.name == StageName && "stage" in detail && d.value == detail["stage"])
    || (d.name == ActionName && "action" in detail && d.value == detail["action"])
  }

  /** The place of a dimension name in the order PipelineName, StageName, ActionName. */
  function NameRank(name: string): nat
  {
    if name == PipelineName then 0 else if name == StageName then 1 else 2
  }

  /** The dimensions append_metric attaches for an event detail. */
  function DimensionsOf(detail: map<string, string>): (dims: seq<Dimension>)
    ensures forall i :: 0 <= i < |dims| ==> FromDetail(dims[i], detail)
    ensures "pipeline" in detail ==> Dimension(PipelineName, detail["pipeline"]) in dims
    ensures "stage" in detail ==> Dimension(StageName, detail["stage"]) in dims
    ensures "action" in detail ==> Dimension(ActionName, detail["action"]) in dims
    ensures forall i, j :: 0 <= i < j < |dims| ==> NameRank(dims[i].name) < NameRank(dims[j].name)
  {
    (if "pipeline" in detail then [Dimension(PipelineName, detail["pipeline"])] else []) +
    (if "stage" in detail then [Dimension(StageName, detail["stage"])] else []) +
    (if "action" in detail then [Dimension(ActionName, detail["action"])] else [])
  }

  /** The data point append_metric builds for `name`, or None when neither
      `seconds` nor `count` is positive; `seconds` wins when both are. */
  function NewDatum(name: string, event: Event, seconds: int, count: int): (d: Option<Datum>)
    requires event.detail.Some?
    ensures d.Some? <==> seconds > 0 || count > 0
    ensures d.Some? ==> d.value.value > 0
    ensures d.Some? ==> d.value.metricName == name && d.value.timestamp == event.time
    ensures d.Some? ==> d.value.dimensions == DimensionsOf(event.detail.value)
    ensures d.Some? ==> (d.value.unit == Seconds <==> seconds > 0)
    ensures d.Some? ==> d.value.value == (if d.value.unit == Seconds then seconds else count)
  {
    var dims := DimensionsOf(event.detail.value);
    if seconds > 0 then Some(Datum(name, dims, event.time, seconds, Seconds))
    else if count > 0 then Some(Datum(name, dims, event.time, count, Count))
    else None
  }

  /** What append_metric adds to the list: the new point, or nothing. */
  function Emitted(name: string, event: Event, seconds: int, count: int): (added: seq<Datum>)
    requires event.detail.Some?
    ensures |added| <= 1
    ensures added == [] <==> seconds <= 0 && count <= 0
  {
    match NewDatum(name, event, seconds, count)
    case Some(d) => [d]
    case None => []
  }

  /** Every point in the list has a strictly positive value. */
  predicate AllPositive(points: seq<Datum>)
  {
    forall i :: 0 <= i < |points| ==> points[i].value > 0
  }

  /** The `metric_list` that append_metric appends to in place. */
  class MetricList {
    var items: seq<Datum>

    ghost predicate Valid()
      reads this
    {
      AllPositive(items)
    }

    constructor ()
      ensures Valid() && items == []
    {
      items := [];
    }

    /** append_metric: builds the dimensions in order, then appends one point
        when `seconds > 0` (unit Seconds) or else `count > 0` (unit Count). */
    method AppendMetric(name: string, event: Event, seconds: int, count: int)
      requires Valid() && event.detail.Some?
      modifies this
      ensures Valid()
      ensures items == old(items) + Emitted(name, event, seconds, count)
    {
      var detail := event.detail.value;
      var dimensions: seq<Dimension> := [];
      if "pipeline" in detail {
        dimensions := dimensions + [Dimension(PipelineName, detail["pipeline"])];
      }
      if "stage" in detail {
        dimensions := dimensions + [Dimension(StageName, detail["stage"])];
      }
      if "action" in detail {
        dimensions := dimensions + [Dimension(ActionName, detail["action"])];
      }
      assert dimensions == DimensionsOf(detail);
      var value: int;
      var unit: StandardUnit;
      if seconds > 0 {
        value, unit := seconds, Seconds;
      } else if count > 0 {
        value, unit := count, Count;
      } else {
        return;
      }
      items := items + [Datum(name, dimensions, event.time, value, unit)];
    }
  }
}
