/**
 pipeline_event: translates one lifecycle event, with the pipeline's
 execution history, into the ordered batch of metric data points it submits.
 */
module Translator {
  import opened Wrappers
  import opened Strings
  import opened Events
  import opened History
  import opened Metrics

  /** The namespace every batch is submitted under. */
  const Namespace := "Pipeline"

  const SuccessCount := "SuccessCount"
  const FailureCount := "FailureCount"
  const LeadTime := "LeadTime"
  const GreenTime := "GreenTime"
  const RedTime := "RedTime"

  /** The put_metric_data request pipeline_event makes. */
  datatype PutMetricData = PutMetricData(namespace: string, metricData: seq<Datum>)

  /** The three detail-type values pipeline_event dispatches on. */
  predicate IsKnownKind(detailType: string)
  {
    detailType == PipelineStateChange || detailType == StageStateChange || detailType == ActionStateChange
  }

  /** pipeline_event indexes `detail.pipeline` and `detail.execution-id` of a
      pipeline-level event that passes the filter without checking for them. */
  predicate HasRequiredKeys(event: Event)
  {
    FinalState(event).Some? && event.detailType == PipelineStateChange ==>
      "pipeline" in event.detail.value && "execution-id" in event.detail.value
  }

  /** The execution id of a pipeline-level event. */
  function ExecutionIdOf(event: Event): string
    requires event.detail.Some? && "execution-id" in event.detail.value
  {
    event.detail.value["execution-id"]
  }

  /** The place of each metric name in a batch. */
  function ReportRank(name: string): nat
  {
    if name == GreenTime || name == RedTime then 0
    else if name == SuccessCount || name == FailureCount then 1
    else 2
  }

  /** At most one positive point of the given rank, with the event's time and dimensions. */
  predicate IsPart(points: seq<Datum>, event: Event, rank: nat)
    requires event.detail.Some?
  {
    |points| <= 1 &&
    forall i :: 0 <= i < |points| ==>
      points[i].value > 0 && points[i].timestamp == event.time &&
      points[i].dimensions == DimensionsOf(event.detail.value) && ReportRank(points[i].metricName) == rank
  }

  /** GreenTime or RedTime: the time since the prior final execution was last
      updated, named after that execution's exact status. */
  function ColorTime(event: Event, history: seq<Execution>): (points: seq<Datum>)
    requires event.detail.Some? && "execution-id" in event.detail.value
    ensures IsPart(points, event, 0)
  {
    match PriorExecution(history, ExecutionIdOf(event))
    case None => []
    case Some(prior) =>
      var seconds := event.time - prior.lastUpdateTime;
      if prior.status == "Succeeded" then Emitted(GreenTime, event, seconds, 0)
      else if prior.status == "Failed" then Emitted(RedTime, event, seconds, 0)
      else []
  }

  /** SuccessCount = 1 or FailureCount = 1 for an exactly final state. */
  function StateCount(event: Event, state: string): (points: seq<Datum>)
    requires event.detail.Some?
    ensures IsPart(points, event, 1)
  {
    if state == Succeeded then Emitted(SuccessCount, event, 0, 1)
    else if state == Failed then Emitted(FailureCount, event, 0, 1)
    else []
  }

  /** LeadTime: the time since the current execution started, when it is in the history. */
  function LeadTimeOf(event: Event, history: seq<Execution>): (points: seq<Datum>)
    requires event.detail.Some? && "execution-id" in event.detail.value
    ensures IsPart(points, event, 2)
  {
    match ExecutionById(history, ExecutionIdOf(event))
    case None => []
    case Some(current) => Emitted(LeadTime, event, event.time - current.startTime, 0)
  }

  /** Parts of increasing rank make a batch of positive points with the
      event's time and dimensions, in increasing rank. */
  lemma PartsInOrder(a: seq<Datum>, b: seq<Datum>, c: seq<Datum>, event: Event)
    requires event.detail.Some?
    requires IsPart(a, event, 0) && IsPart(b, event, 1) && IsPart(c, event, 2)
    ensures var metrics := a + b + c;
      && AllPositive(metrics)
      && (forall i :: 0 <= i < |metrics| ==>
            metrics[i].timestamp == event.time && metrics[i].dimensions == DimensionsOf(event.detail.value))
      && (forall i, j :: 0 <= i < j < |metrics| ==> ReportRank(metrics[i].metricName) < ReportRank(metrics[j].metricName))
  {
    var metrics := a + b + c;
    forall i | 0 <= i < |metrics|
      ensures ReportRank(metrics[i].metricName) == if i < |a| then 0 else if i < |a| + |b| then 1 else 2
    {
      if i < |a| {
        assert metrics[i] == a[i];
      } else if i < |a| + |b| {
        assert metrics[i] == b[i - |a|];
      } else {
        assert metrics[i] == c[i - |a| - |b|];
      }
    }
  }

  /** The batch pipeline_event collects for an event. */
  function EventMetrics(event: Event, history: seq<Execution>): (metrics: seq<Datum>)
    requires HasRequiredKeys(event)
    ensures FinalState(event).None? || !IsKnownKind(event.detailType) ==> metrics == []
    ensures AllPositive(metrics)
    ensures forall i :: 0 <= i < |metrics| ==>
              event.detail.Some? && metrics[i].timestamp == event.time && metrics[i].dimensions == DimensionsOf(event.detail.value)
    ensures forall i, j :: 0 <= i < j < |metrics| ==> ReportRank(metrics[i].metricName) < ReportRank(metrics[j].metricName)
    ensures forall i, j :: 0 <= i < j < |metrics| ==> metrics[i].metricName != metrics[j].metricName
  {
    match FinalState(event)
    case None => []
    case Some(state) =>
      if event.detailType == PipelineStateChange then
        var color := ColorTime(event, history);
        var counts := StateCount(event, state);
        var lead := if state == Succeeded then LeadTimeOf(event, history) else [];
        PartsInOrder(color, counts, lead, event);
        color + counts + lead
      else if event.detailType == StageStateChange || event.detailType == ActionStateChange then
        PartsInOrder([], StateCount(event, state), [], event);
        assert [] + StateCount(event, state) + [] == StateCount(event, state);
        StateCount(event, state)
      else []
  }

  /** The GreenTime/RedTime block of pipeline_event: look up the prior
      execution and append the time since it was last updated. */
  method AppendColorTime(metricData: MetricList, event: Event, history: seq<Execution>)
    requires metricData.Valid() && event.detail.Some? && "execution-id" in event.detail.value
    modifies metricData
    ensures metricData.Valid()
    ensures metricData.items == old(metricData.items) + ColorTime(event, history)
  {
    var prior := GetPriorExecution(history, event.detail.value["execution-id"]);
    if prior.Some? {
      var lastExecutionState := prior.value.status;
      var secondsSinceLastExecution := event.time - prior.value.lastUpdateTime;
      if lastExecutionState == "Succeeded" {
        metricData.AppendMetric(GreenTime, event, secondsSinceLastExecution, 0);
      } else if lastExecutionState == "Failed" {
        metricData.AppendMetric(RedTime, event, secondsSinceLastExecution, 0);
      }
    }
  }

  /** The pipeline-level branch of pipeline_event: GreenTime/RedTime, then
      SuccessCount and LeadTime for SUCCEEDED, or FailureCount for FAILED. */
  method AppendPipelineMetrics(metricData: MetricList, event: Event, history: seq<Execution>, state: string)
    requires metricData.Valid() && event.detail.Some? && "execution-id" in event.detail.value
    modifies metricData
    ensures metricData.Valid()
    ensures metricData.items == old(metricData.items) + ColorTime(event, history) + StateCount(event, state) +
                                (if state == Succeeded then LeadTimeOf(event, history) else [])
  {
    AppendColorTime(metricData, event, history);
    AppendStateCount(metricData, event, state);
    if state == Succeeded {
      AppendLeadTime(metricData, event, history);
    }
  }

  /** The LeadTime block of the SUCCEEDED branch: look up the current
      execution and append the time since it started. */
  method AppendLeadTime(metricData: MetricList, event: Event, history: seq<Execution>)
    requires metricData.Valid() && event.detail.Some? && "execution-id" in event.detail.value
    modifies metricData
    ensures metricData.Valid()
    ensures metricData.items == old(metricData.items) + LeadTimeOf(event, history)
  {
    var current := GetExecution(history, event.detail.value["execution-id"]);
    if current.Some? {
      metricData.AppendMetric(LeadTime, event, event.time - current.value.startTime, 0);
    } else {
      assert metricData.items == old(metricData.items) + [];
    }
  }

  /** The count block shared by the stage and action branches. */
  method AppendStateCount(metricData: MetricList, event: Event, state: string)
    requires metricData.Valid() && event.detail.Some?
    modifies metricData
    ensures metricData.Valid()
    ensures metricData.items == old(metricData.items) + StateCount(event, state)
  {
    if state == Succeeded {
      metricData.AppendMetric(SuccessCount, event, 0, 1);
    } else if state == Failed {
      metricData.AppendMetric(FailureCount, event, 0, 1);
    }
  }

  /** pipeline_event: filter, dispatch on detail-type and state, append each
      metric in place, and submit the batch only when it is non-empty. */
  method PipelineEvent(event: Event, history: seq<Execution>) returns (request: Option<PutMetricData>)
    requires HasRequiredKeys(event)
    ensures request.Some? <==> EventMetrics(event, history) != []
    ensures request.Some? ==> request.value == PutMetricData(Namespace, EventMetrics(event, history))
  {
    var state := FinalState(event);
    if state.None? {
      return None;
    }
    var metricData := new MetricList();
    if event.detailType == PipelineStateChange {
      AppendPipelineMetrics(metricData, event, history, state.value);
    } else if event.detailType == StageStateChange {
      AppendStateCount(metricData, event, state.value);
    } else if event.detailType == ActionStateChange {
      AppendStateCount(metricData, event, state.value);
    }
    assert metricData.items == EventMetrics(event, history);
    if |metricData.items| > 0 {
      request := Some(PutMetricData(Namespace, metricData.items));
    } else {
      request := None;
    }
  }

  /** A duration or count that is reported only when positive. */
  function Positive(v: int): Option<int>
  {
    if v > 0 then Some(v) else None
  }

  /** The unit each metric name is reported in. */
  function UnitOf(name: string): StandardUnit
  {
    if name == SuccessCount || name == FailureCount then Count else Seconds
  }

  /** An independent, metric-by-metric account of the batch: the value `name`
      is reported with, or None when it is not reported. */
  ghost function Expected(event: Event, history: seq<Execution>, name: string): Option<int>
    requires HasRequiredKeys(event)
  {
    match FinalState(event)
    case None => None
    case Some(state) =>
      if name == SuccessCount then
        if IsKnownKind(event.detailType) && state == Succeeded then Some(1) else None
      else if name == FailureCount then
        if IsKnownKind(event.detailType) && state == Failed then Some(1) else None
      else if event.detailType != PipelineStateChange then None
      else if name == LeadTime then
        var current := ExecutionById(history, ExecutionIdOf(event));
        if state == Succeeded && current.Some? then Positive(event.time - current.value.startTime) else None
      else if name == GreenTime || name == RedTime then
        var prior := PriorExecution(history, ExecutionIdOf(event));
        var color := if name == GreenTime then "Succeeded" else "Failed";
        if prior.Some? && prior.value.status == color then Positive(event.time - prior.value.lastUpdateTime) else None
      else None
  }

  /** The value and unit a batch reports `name` with: those of its first
      point so named, None when no point is. */
  function ValueOf(metrics: seq<Datum>, name: string): Option<(int, StandardUnit)>
  {
    if metrics == [] then None
    else if metrics[0].metricName == name then Some((metrics[0].value, metrics[0].unit))
    else ValueOf(metrics[1..], name)
  }

  /** What Expected gives, paired with the unit the metric is reported in. */
  ghost function ExpectedReport(event: Event, history: seq<Execution>, name: string): Option<(int, StandardUnit)>
    requires HasRequiredKeys(event)
  {
    match Expected(event, history, name)
    case None => None
    case Some(v) => Some((v, UnitOf(name)))
  }

  /** A batch made of two parts reports a name as the first part does, or,
      failing that, as the second does. */
  lemma {:induction false} ValueOfConcat(a: seq<Datum>, b: seq<Datum>, name: string)
    ensures ValueOf(a + b, name) == if ValueOf(a, name).Some? then ValueOf(a, name) else ValueOf(b, name)
  {
    if a != [] {
      assert (a + b)[1..] == a[1..] + b;
      ValueOfConcat(a[1..], b, name);
    } else {
      assert a + b == b;
    }
  }

  /** A point append_metric may add is reported with its value in its unit. */
  lemma EmittedValue(metric: string, event: Event, seconds: int, count: int, name: string)
    requires event.detail.Some?
    ensures ValueOf(Emitted(metric, event, seconds, count), name) ==
              if metric == name && seconds > 0 then Some((seconds, Seconds))
              else if metric == name && count > 0 then Some((count, Count))
              else None
  {
  }

  /** The GreenTime/RedTime part agrees with Expected on those two names. */
  lemma ColorTimeMatchesExpected(event: Event, history: seq<Execution>, name: string)
    requires HasRequiredKeys(event) && FinalState(event).Some? && event.detailType == PipelineStateChange
    ensures ValueOf(ColorTime(event, history), name) ==
              if name == GreenTime || name == RedTime then ExpectedReport(event, history, name) else None
  {
    match PriorExecution(history, ExecutionIdOf(event))
    case None =>
    case Some(prior) =>
      var seconds := event.time - prior.lastUpdateTime;
      EmittedValue(GreenTime, event, seconds, 0, name);
      EmittedValue(RedTime, event, seconds, 0, name);
  }

  /** The count part agrees with Expected on SuccessCount and FailureCount. */
  lemma StateCountMatchesExpected(event: Event, history: seq<Execution>, name: string)
    requires HasRequiredKeys(event) && FinalState(event).Some? && IsKnownKind(event.detailType)
    ensures ValueOf(StateCount(event, FinalState(event).value), name) ==
              if name == SuccessCount || name == FailureCount then ExpectedReport(event, history, name) else None
  {
    EmittedValue(SuccessCount, event, 0, 1, name);
    EmittedValue(FailureCount, event, 0, 1, name);
  }

  /** The LeadTime part of a SUCCEEDED pipeline event agrees with Expected on LeadTime. */
  lemma LeadTimeMatchesExpected(event: Event, history: seq<Execution>, name: string)
    requires HasRequiredKeys(event) && FinalState(event) == Some(Succeeded) && event.detailType == PipelineStateChange
    ensures ValueOf(LeadTimeOf(event, history), name) == if name == LeadTime then ExpectedReport(event, history, name) else None
  {
    match ExecutionById(history, ExecutionIdOf(event))
    case None =>
    case Some(current) =>
      EmittedValue(LeadTime, event, event.time - current.startTime, 0, name);
  }

  /** The batch of a pipeline-level event agrees with Expected on every name. */
  lemma PipelineMetricsMatchExpected(event: Event, history: seq<Execution>, name: string)
    requires HasRequiredKeys(event) && FinalState(event).Some? && event.detailType == PipelineStateChange
    ensures ValueOf(EventMetrics(event, history), name) == ExpectedReport(event, history, name)
  {
    var state := FinalState(event).value;
    var color := ColorTime(event, history);
    var counts := StateCount(event, state);
    var lead := if state == Succeeded then LeadTimeOf(event, history) else [];
    assert EventMetrics(event, history) == color + counts + lead;
    ValueOfConcat(color + counts, lead, name);
    ValueOfConcat(color, counts, name);
    ColorTimeMatchesExpected(event, history, name);
    StateCountMatchesExpected(event, history, name);
    if state == Succeeded {
      LeadTimeMatchesExpected(event, history, name);
    }
  }

  /** The batch holds exactly the metrics Expected reports, with their values
      and units, whatever the event. */
  lemma EventMetricsMatchExpected(event: Event, history: seq<Execution>, name: string)
    requires HasRequiredKeys(event)
    ensures ValueOf(EventMetrics(event, history), name) == ExpectedReport(event, history, name)
  {
    if FinalState(event).Some? {
      if event.detailType == PipelineStateChange {
        PipelineMetricsMatchExpected(event, history, name);
      } else if IsKnownKind(event.detailType) {
        StateCountMatchesExpected(event, history, name);
      }
    }
  }

  /** Stage- and action-level events report SuccessCount = 1 for SUCCEEDED,
      FailureCount = 1 for FAILED, and never a duration. */
  lemma StageAndActionEventsOnlyCount(event: Event, history: seq<Execution>)
    requires event.detailType == StageStateChange || event.detailType == ActionStateChange
    ensures FinalState(event) == Some(Succeeded) ==>
              |EventMetrics(event, history)| == 1 && EventMetrics(event, history)[0].metricName == SuccessCount &&
              EventMetrics(event, history)[0].value == 1 && EventMetrics(event, history)[0].unit == Count
    ensures FinalState(event) == Some(Failed) ==>
              |EventMetrics(event, history)| == 1 && EventMetrics(event, history)[0].metricName == FailureCount &&
              EventMetrics(event, history)[0].value == 1 && EventMetrics(event, history)[0].unit == Count
    ensures FinalState(event) != Some(Succeeded) && FinalState(event) != Some(Failed) ==> EventMetrics(event, history) == []
  {
  }

  /** In-progress and other non-final events produce no metrics, so no request. */
  lemma TransitionalEventsReportNothing(event: Event, history: seq<Execution>)
    requires StateOf(event).Some?
    requires StateOf(event).value in ["STARTED", "STOPPING", "STOPPED", "SUPERSEDED", "RESUMED", "CANCELED", "ABANDONED"]
    ensures HasRequiredKeys(event) && EventMetrics(event, history) == []
  {
    TransitionalStatesFiltered(event);
  }

  /** A worked example: a pipeline succeeding at time t whose
      execution started 300 s earlier, after a failed execution last updated
      600 s earlier, reports RedTime = 600, SuccessCount = 1, LeadTime = 300. */
  lemma WorkedExample(t: int)
    ensures
      var detail := map["state" := "SUCCEEDED", "pipeline" := "P", "execution-id" := "E2"];
      var event := Event(t, PipelineStateChange, Some(detail));
      var history := [Execution("E2", "Succeeded", t - 300, t), Execution("E1", "Failed", t - 900, t - 600)];
      var dims := [Dimension(PipelineName, "P")];
      HasRequiredKeys(event) &&
      EventMetrics(event, history) ==
        [Datum(RedTime, dims, t, 600, Seconds), Datum(SuccessCount, dims, t, 1, Count), Datum(LeadTime, dims, t, 300, Seconds)]
  {
    var detail := map["state" := "SUCCEEDED", "pipeline" := "P", "execution-id" := "E2"];
    var event := Event(t, PipelineStateChange, Some(detail));
    var history := [Execution("E2", "Succeeded", t - 300, t), Execution("E1", "Failed", t - 900, t - 600)];
    var dims := [Dimension(PipelineName, "P")];
    assert FinalState(event) == Some(Succeeded);
    assert DimensionsOf(detail) == dims;
    assert IsFinalStatus("Failed") by {
      assert IsPrefix("Failed", "Failed");
    }
    assert PriorScan(history, "E2", 1, true) == Some(history[1]);
    assert ColorTime(event, history) == [Datum(RedTime, dims, t, 600, Seconds)];
    assert ExecutionById(history, "E2") == Some(history[0]);
    assert LeadTimeOf(event, history) == [Datum(LeadTime, dims, t, 300, Seconds)];
  }


  /** Because the state filter checks containment, a pipeline event whose
      state is the empty string still reports GreenTime after a succeeded
      execution, though it reports no count. */
  lemma EmptyStateStillReportsColorTime(t: int)
    ensures
      var event := Event(t, PipelineStateChange, Some(map["state" := "", "pipeline" := "P", "execution-id" := "E2"]));
      var history := [Execution("E2", "InProgress", t - 60, t), Execution("E1", "Succeeded", t - 900, t - 600)];
      HasRequiredKeys(event) &&
      EventMetrics(event, history) == [Datum(GreenTime, [Dimension(PipelineName, "P")], t, 600, Seconds)]
  {
    var detail := map["state" := "", "pipeline" := "P", "execution-id" := "E2"];
    var event := Event(t, PipelineStateChange, Some(detail));
    var history := [Execution("E2", "InProgress", t - 60, t), Execution("E1", "Succeeded", t - 900, t - 600)];
    var dims := [Dimension(PipelineName, "P")];
    assert FinalState(event) == Some("") by {
      assert IsPrefix("", Succeeded);
    }
    assert DimensionsOf(detail) == dims;
    assert IsFinalStatus("Succeeded") by {
      assert IsPrefix("Succeeded", "Succeeded");
    }
    assert PriorScan(history, "E2", 1, true) == Some(history[1]);
    assert ColorTime(event, history) == [Datum(GreenTime, dims, t, 600, Seconds)];
  }

}
