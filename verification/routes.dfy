/**
  The fixed vocabulary of the persistor: the KairosDB REST paths it calls and
  the action names its command switch recognises.
 */
module Routes {
  import opened Options

  const BaseUri: string := "/api/v1/"
  const AddDataPointsUri: string := BaseUri + "datapoints"
  const DeleteDataPointsUri: string := BaseUri + "datapoints/delete"
  const QueryDataPointsUri: string := BaseUri + "datapoints/query"
  const QueryDataPointsTagsUri: string := BaseUri + "datapoints/query/tags"
  const VersionUri: string := BaseUri + "version"
  const MetricNamesUri: string := BaseUri + "metricnames"
  const TagNamesUri: string := BaseUri + "tagnames"
  const TagValuesUri: string := BaseUri + "tagvalues"

  /** The delete-metric path: the name is formatted into the path as it is,
      with no escaping. */
  function MetricUri(metricName: string): (path: string)
    ensures BaseUri + "metric/" <= path
    ensures path[|BaseUri + "metric/"|..] == metricName
  {
    BaseUri + "metric/" + metricName
  }

  datatype Action =
    | AddDataPoints
    | DeleteDataPoints
    | DeleteMetric
    | ListMetricNames
    | ListTagNames
    | ListTagValues
    | QueryMetrics
    | QueryMetricTags
    | Version

  /** The wire name of each action. */
  function ActionName(a: Action): string {
    match a
    case AddDataPoints => "add_data_points"
    case DeleteDataPoints => "delete_data_points"
    case DeleteMetric => "delete_metric"
    case ListMetricNames => "list_metric_names"
    case ListTagNames => "list_tag_names"
    case ListTagValues => "list_tag_values"
    case QueryMetrics => "query_metrics"
    case QueryMetricTags => "query_metric_tags"
    case Version => "version"
  }

  /** The `switch` of `handle`: exact, case-sensitive matching of the action
      string against the nine names. */
  function ParseAction(name: string): (r: Option<Action>)
    ensures r.Some? ==> ActionName(r.value) == name
    ensures (exists a :: ActionName(a) == name) ==> r.Some?
  {
    if name == "add_data_points" then Some(AddDataPoints)
    else if name == "delete_data_points" then Some(DeleteDataPoints)
    else if name == "delete_metric" then Some(DeleteMetric)
    else if name == "list_metric_names" then Some(ListMetricNames)
    else if name == "list_tag_names" then Some(ListTagNames)
    else if name == "list_tag_values" then Some(ListTagValues)
    else if name == "query_metrics" then Some(QueryMetrics)
    else if name == "query_metric_tags" then Some(QueryMetricTags)
    else if name == "version" then Some(Version)
    else None
  }

  /** Every action is reachable by its own name, so the switch and the name
      table are mutually inverse. */
  lemma ParseActionName(a: Action)
    ensures ParseAction(ActionName(a)) == Some(a)
  {
  }

  /** Distinct actions have distinct names. */
  lemma ActionNameInjective(a: Action, b: Action)
    requires ActionName(a) == ActionName(b)
    ensures a == b
  {
    ParseActionName(a);
    ParseActionName(b);
  }

}
