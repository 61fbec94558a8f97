# CodePipeline metrics and dashboard handler, modelled in Dafny

The handler turns pipeline lifecycle events into CloudWatch metric data points
and builds a CloudWatch dashboard from the metrics already stored. This project
models both entry points of `app/handler.py` as Dafny, with the AWS calls turned
into plain inputs and outputs:

- **Event translator** (`pipeline_event` and its helpers). An event passes the
  final-state filter (`get_final_state`). The pipeline's execution history is
  scanned for the current execution (`get_execution`) and for the prior final
  execution (`get_prior_execution`). Each metric is built by `append_metric`,
  which appends a point to the caller's list only when its value is positive.
  The batch is submitted under the `Pipeline` namespace when it is non-empty.
- **Dashboard generator** (`generate_dashboard`). It collects the distinct
  `PipelineName` dimension values over every page of the metric listing and
  sorts them. It stacks one 18×3 metric widget per name at y = 0, 3, 6, …, then
  adds one 6×6 legend text widget at x = 18.

Layout:

- `wrappers.dfy` (module `Wrappers`): `Option`, for Python's `None`.
- `strings.dfy` (module `Strings`): Python's `in` on strings (`IsSubstring`)
  and Python's `<` on strings (`LexLess`), with their properties.
- `events.dfy` (module `Events`): the event and the final-state filter.
- `history.dfy` (module `History`): the execution summaries and the two
  scans. Each scan is a specification function plus a loop method proved equal to it.
- `metrics.dfy` (module `Metrics`): dimensions, data points, and
  `MetricList`, the list `append_metric` mutates in place.
- `translator.dfy` (module `Translator`): `EventMetrics` (the batch as a
  function) and `PipelineEvent` (the imperative handler proved to produce it).
  Also `Expected`, an independent metric-by-metric account of the batch, with
  the lemma that the two agree.
- `dashboard.dfy` (module `Dashboard`): name collection, `sorted()`, and the
  widget layout.

The filters follow the code rather than the comment at `app/handler.py:63`,
which says a state passes only if it is one of SUCCEEDED or FAILED.
`get_final_state` checks `state in 'SUCCEEDED'` or `state in 'FAILED'`, which is
substring containment, so states such as `""` or `"FAIL"` pass the filter
(`Events.PartialStatesPass`). Such a pipeline-level event can then still report
GreenTime or RedTime without any count
(`Translator.EmptyStateStillReportsColorTime`). In the same way, the
prior-execution scan accepts any status that is a substring of `Succeeded` or
`Failed`. GreenTime and RedTime are reported only for the exact statuses.

## Model

| member | source | states |
|---|---|---|
| Events.StateOf | app/handler.py:65 | the state is present exactly when the event has a `detail` holding a `state` key |
| Events.FinalState | app/handler.py:63-68 | a state is returned exactly when the event has one and it occurs as one contiguous run of `SUCCEEDED` or of `FAILED`, otherwise None; the result is the event's own `detail.state`; an exact `SUCCEEDED` or `FAILED` always passes |
| Events.ScatteredLettersFiltered | app/handler.py:66-68 | the state `SS`, made of letters of SUCCEEDED that are not adjacent there, is filtered out |
| Events.ForeignStateFiltered | app/handler.py:64-68 | a state containing a character that occurs in neither `SUCCEEDED` nor `FAILED` is filtered out |
| Events.TransitionalStatesFiltered | app/handler.py:63-68 | the service's non-final states STARTED, STOPPING, STOPPED, SUPERSEDED, RESUMED, CANCELED and ABANDONED never pass the filter |
| Events.PartialStatesPass | app/handler.py:66 | because the check is containment, `""`, `FAIL` and `SUCCEED` pass the filter unchanged |
| Strings.IsSubstring | app/handler.py:66 | Python's `part in whole` on strings: a contiguous occurrence, scanned one offset at a time; only a part no longer than the whole can occur |
| Strings.SubstringIffOccurrence | app/handler.py:66 | Python's `part in whole` holds exactly when `part` occurs at some offset of `whole` |
| History.ExecutionFrom | app/handler.py:75-79 | the scan of get_execution from position i; any summary it returns carries the requested id |
| History.ExecutionFromIsFirst | app/handler.py:75-79 | from position i, the scan finds None exactly when no later summary has the id, and otherwise the first summary that has it |
| History.ExecutionById | app/handler.py:72-79 | get_execution returns the first summary whose id matches, and None exactly when no summary matches |
| History.GetExecution | app/handler.py:72-79 | the early-return loop returns exactly ExecutionById |
| History.IsFinalStatus | app/handler.py:88 | a status passes the prior-execution test when it is a substring of `Succeeded` or of `Failed` |
| History.PriorScan | app/handler.py:86-93 | the loop of get_prior_execution from position i with its `found_current` flag; any summary it returns has a final status |
| History.PriorExecution | app/handler.py:83-93 | get_prior_execution: the scan from the start with the flag cleared; any summary it returns has a final status |
| History.GetPriorExecution | app/handler.py:83-93 | the loop with its `found_current` flag returns exactly PriorExecution |
| History.FoundPhase | app/handler.py:87-89 | once the flag is set, the scan returns the first summary from there on whose status is final, and None when there is none |
| History.SearchPhase | app/handler.py:87-91 | before the flag is set, the scan continues just past the first summary with the current id, and returns None when there is none |
| History.PriorExecutionIsFirstFinalAfterCurrent | app/handler.py:82-93 | get_prior_execution returns the first final-status summary strictly after the first summary with the current id; it returns None exactly when no such summary exists |
| History.PriorExecutionNeedsCurrent | app/handler.py:86-93 | when the current id is absent from the history, there is no prior execution |
| History.PriorExecutionIsNotCurrent | app/handler.py:87-91 | with unique ids, the prior execution is never the current one and its status is final |
| Metrics.DimensionsOf | app/handler.py:103-123 | each dimension comes from a present key and carries that key's value; every present key of pipeline, stage and action contributes one; the order is PipelineName, StageName, ActionName |
| Metrics.NewDatum | app/handler.py:96-133 | a point exists exactly when `seconds > 0` or `count > 0`; its value is positive; its unit is Seconds exactly when `seconds > 0`; it has the event's time and dimensions |
| Metrics.Emitted | app/handler.py:125-137 | append_metric adds at most one point, and adds nothing exactly when neither `seconds` nor `count` is positive |
| Metrics.MetricList.constructor | app/handler.py:14 | the list starts empty, with every value positive |
| Metrics.MetricList.AppendMetric | app/handler.py:96-137 | the old points stay as they were, followed by the new point if any; every point in the list stays strictly positive |
| Translator.HasRequiredKeys | app/handler.py:18-30 | a pipeline-level event that passes the filter has the `pipeline` and `execution-id` keys the history lookups read |
| Translator.ColorTime | app/handler.py:17-25 | the GreenTime/RedTime part holds at most one positive point of the lowest rank, with the event's time and dimensions |
| Translator.StateCount | app/handler.py:27-53 | the SuccessCount/FailureCount part holds at most one positive point of the middle rank, with the event's time and dimensions |
| Translator.LeadTimeOf | app/handler.py:30-33 | the LeadTime part holds at most one positive point of the highest rank, with the event's time and dimensions |
| Translator.EventMetrics | app/handler.py:7-53 | nothing for a filtered event or an unknown detail-type; every value positive; every point has the event's time and dimensions; GreenTime/RedTime before SuccessCount/FailureCount before LeadTime, no name twice |
| Translator.PartsInOrder | app/handler.py:16-35 | joining the GreenTime/RedTime part, the count part and the LeadTime part keeps every value positive, the event's time and dimensions on every point, and the ranks strictly increasing |
| Translator.AppendColorTime | app/handler.py:17-25 | the list gains exactly GreenTime or RedTime for a prior execution whose status is exactly Succeeded or Failed, and nothing otherwise; values stay positive |
| Translator.AppendStateCount | app/handler.py:37-53 | the list gains exactly SuccessCount = 1 for SUCCEEDED, FailureCount = 1 for FAILED, and nothing otherwise |
| Translator.AppendLeadTime | app/handler.py:30-33 | the list gains LeadTime, the time since the current execution started, when the history holds that execution and the time is positive |
| Translator.AppendPipelineMetrics | app/handler.py:16-35 | the pipeline branch appends, in order, the GreenTime/RedTime part, the count part and, for SUCCEEDED only, the LeadTime part |
| Translator.PipelineEvent | app/handler.py:7-60 | the handler submits one request to the `Pipeline` namespace with exactly EventMetrics, and submits nothing when that batch is empty |
| Translator.Expected | app/handler.py:7-53 | an independent account, metric by metric, of the value each name is reported with: SuccessCount or FailureCount 1 for a known kind in that exact state; LeadTime and GreenTime/RedTime for pipeline events only, each only when positive |
| Translator.ColorTimeMatchesExpected | app/handler.py:17-25 | the GreenTime/RedTime part reports GreenTime or RedTime exactly as Expected does, and no other name |
| Translator.StateCountMatchesExpected | app/handler.py:27-35 | the count part reports SuccessCount and FailureCount exactly as Expected does, and no other name |
| Translator.LeadTimeMatchesExpected | app/handler.py:27-33 | the LeadTime part reports LeadTime exactly as Expected does, and no other name |
| Translator.PipelineMetricsMatchExpected | app/handler.py:16-35 | a pipeline-level event reports each metric with the value and unit that Expected gives: GreenTime/RedTime for an exact Succeeded/Failed prior status, SuccessCount then LeadTime, or FailureCount, each only if positive |
| Translator.EventMetricsMatchExpected | app/handler.py:7-53 | for every event and every metric name, the batch reports that name exactly as Expected does |
| Translator.StageAndActionEventsOnlyCount | app/handler.py:37-53 | stage and action events report exactly SuccessCount = 1 (Count) for SUCCEEDED or FailureCount = 1 for FAILED, and nothing otherwise |
| Translator.TransitionalEventsReportNothing | app/handler.py:9-11 | an event in one of the service's non-final states (STARTED, STOPPING, STOPPED, SUPERSEDED, RESUMED, CANCELED, ABANDONED) produces an empty batch |
| Translator.WorkedExample | app/handler.py:16-35 | after a Failed execution last updated 600 s earlier, a success whose execution started 300 s earlier reports RedTime 600, SuccessCount 1, LeadTime 300, in that order |
| Translator.EmptyStateStillReportsColorTime | app/handler.py:9-25 | a pipeline event whose state is `""` passes the filter and reports GreenTime alone |
| Dashboard.NamesInDimensions | app/handler.py:150-152 | the set of PipelineName values among one metric's dimensions |
| Dashboard.NamesInPage | app/handler.py:149-152 | the union of those sets over the metrics of one page |
| Dashboard.NamesInPages | app/handler.py:147-152 | the union over all pages: the set the three loops collect |
| Dashboard.NamesInDimensionsMembership | app/handler.py:150-152 | a name is collected from a metric's dimensions exactly when one of them is a PipelineName dimension carrying it |
| Dashboard.NamesInPageMembership | app/handler.py:149-152 | a name is collected from a page exactly when some metric on it has such a dimension |
| Dashboard.NamesInPagesMembership | app/handler.py:147-152 | a name is collected exactly when some metric on some page has a PipelineName dimension with that value |
| Dashboard.CollectPipelineNames | app/handler.py:147-152 | the three nested loops build exactly the set NamesInPages |
| Strings.LexLess | app/handler.py:160 | Python's `<` on strings, the order `sorted()` uses: lexicographic by code point, a proper prefix first |
| Dashboard.Least | app/handler.py:160 | the least name of a non-empty set is in the set and precedes every other name |
| Dashboard.SortNames | app/handler.py:160 | `sorted()` yields every name of the set once, in strictly increasing string order |
| Dashboard.StackWidgets | app/handler.py:159-181 | one widget per name, in order: widget k is the 18×3 metric widget at (0, 3k) titled with the k-th name |
| Dashboard.GenerateDashboard | app/handler.py:140-194 | there is one widget per distinct pipeline name plus one; widget k is a metric widget at (0, 3k), 18×3, titled with a collected name; titles strictly increase and cover every name; the last widget is the text widget at (18, 0), 6×6 |
| Dashboard.SortedOrderUnique | app/handler.py:160 | two strictly increasing sequences of the same names are equal, so the layout depends only on the set of names |
| Dashboard.TwoPipelinesInOrder | app/handler.py:160-181 | for pipelines B and A the order is A, then B |

## Left out

- The AWS clients are not modelled. `list_pipeline_executions` is replaced by
  the `history` parameter, which is the summary list the call returns. The
  handler calls it only for a pipeline-level event that passes the filter:
  once through `get_prior_execution` (`app/handler.py:18`), and a second
  time through `get_execution` (`app/handler.py:30`) when the state is
  SUCCEEDED. Stage and action events and filtered events never call it.
  The model assumes that both calls of a SUCCEEDED event return the same list.
- `put_metric_data` is not called. `PipelineEvent` returns the request it
  would make. Failures of the service are not modelled.
- `dashboard_event`, `put_dashboard`, `json.dumps` and the `__main__` entry
  are not modelled: they only serialise and submit the value
  `GenerateDashboard` returns.
- The `list_metrics` paginator is replaced by its sequence of pages.
- `datetime.strptime` parsing and time zones are not modelled. Event and
  execution times are whole seconds, so a malformed `time` (a fatal
  `ValueError` in the source) is not modelled. The float
  `total_seconds()` arithmetic is integer subtraction, so the sub-second
  precision of the service's timestamps is lost.
- `sorted()` is a Python builtin; `SortNames` stands in for it with a
  selection loop. Only its result is meant to match: each name once, in
  increasing code-point order.
- The `print` logging line and its `resource_parts` list are not modelled.
- A metric widget's other properties are not modelled. The view, the region
  and the periods are constants. The five-metric array is constant except
  that its first row names the pipeline; that name is the widget's title and
  is not modelled separately. The legend's markdown text is not modelled
  either. Widgets carry only their type, position, size and title.
- A `KeyError` on a missing `detail.pipeline` or `detail.execution-id` of a
  pipeline-level event is not modelled. `HasRequiredKeys` is a precondition
  instead. `time` and `detail-type` are always-present fields of `Event`.
- Detail values are strings. The `TypeError` Python raises for a non-string
  `state` or `status` in `in` is not modelled.
