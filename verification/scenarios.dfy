/**
  Concrete commands and payloads of the kind the repository's tests send,
  with the verdicts and replies the model gives them.
 */
module Scenarios {
  import opened Options
  import opened Json
  import opened Decimal
  import opened Routes
  import opened KairosPersistor
  import opened JsonValidator
  import PersistorProperties

  const Tags: Object := map["test_type" := JString("integration")]

  function SinglePoint(): Object {
    map["name" := JString("integration.tests"), "timestamp" := JNumber(1382443502000),
        "value" := JNumber(42), "tags" := JObject(Tags)]
  }

  function MultiplePoints(): Object {
    map["name" := JString("integration.tests"), "tags" := JObject(Tags),
        "datapoints" := JArray([JArray([JNumber(1382443502000), JNumber(42)]),
                                JArray([JNumber(1382443502100), JNumber(52)])])]
  }

  /** A backend that answers every request with the same response. */
  function Answering(response: Response): Request -> Response {
    _ => response
  }

  /** The single-point and multi-point payloads of the tests pass. */
  lemma ValidPayloads()
    ensures ValidateDataPoints(Some(SinglePoint()))
    ensures ValidateDataPoints(Some(MultiplePoints()))
  {
  }

  /** Dropping any required field of the single-point payload fails it. */
  lemma SinglePointFieldsRequired()
    ensures !ValidateDataPoints(Some(SinglePoint() - {"name"}))
    ensures !ValidateDataPoints(Some(SinglePoint() - {"timestamp"}))
    ensures !ValidateDataPoints(Some(SinglePoint() - {"value"}))
    ensures !ValidateDataPoints(Some(SinglePoint() - {"tags"}))
  {
    var s := SinglePoint();
    assert (s - {"timestamp"})["name"] == s["name"] && (s - {"timestamp"})["tags"] == s["tags"];
    assert (s - {"value"})["name"] == s["name"] && (s - {"value"})["tags"] == s["tags"];
  }

  /** Dropping any required field of the multi-point payload fails it. */
  lemma MultiplePointsFieldsRequired()
    ensures !ValidateDataPoints(Some(MultiplePoints() - {"name"}))
    ensures !ValidateDataPoints(Some(MultiplePoints() - {"tags"}))
    ensures !ValidateDataPoints(Some(MultiplePoints() - {"datapoints"}))
  {
    var m := MultiplePoints();
    assert (m - {"datapoints"})["name"] == m["name"] && (m - {"datapoints"})["tags"] == m["tags"];
  }

  /** An unknown action is refused and quoted back. */
  lemma UnknownActionRefused(backend: Request -> Response)
    ensures Respond(map["action" := JString("invalid")], backend)
            == Error("unsupported action specified: invalid")
  {
  }

  /** A command without an action is refused. */
  lemma NoActionRefused(backend: Request -> Response)
    ensures Respond(map[], backend) == Error("action must be specified")
  {
  }

  /** `add_data_points` without a payload fails before anything is sent. */
  lemma AddDataPointsWithoutPayload(backend: Request -> Response)
    ensures Respond(map["action" := JString("add_data_points")], backend)
            == Error("data points object is not specified")
  {
  }

  /** `add_data_points` with a payload lacking tags fails before anything is sent. */
  lemma AddDataPointsWithoutTags(backend: Request -> Response)
    ensures Respond(map["action" := JString("add_data_points"),
                        "datapoints" := JObject(SinglePoint() - {"tags"})], backend)
            == Error("data points object was incorrectly formatted")
  {
    var command := map["action" := JString("add_data_points"), "datapoints" := JObject(SinglePoint() - {"tags"})];
    assert GetObject(command, "datapoints") == Some(SinglePoint() - {"tags"});
    PersistorProperties.AddDataPointsRoute(command);
  }

  /** The version reply carries the backend's fields. */
  lemma VersionReply(v: string)
    ensures Respond(map["action" := JString("version")],
                    Answering(Response(200, "OK", map["version" := JString(v)])))
            == Ok(map["version" := JString(v)])
  {
  }

  /** The status code 400 renders as the three characters of the tests. */
  lemma Render400()
    ensures IntToString(400) == "400"
  {
    assert NatToString(4) == "4";
    assert NatToString(40) == "40";
  }

  lemma DeleteMetricBadRequest()
    ensures ErrorMessage("error deleting metric", 400, "Bad Request") == "error deleting metric: 400 Bad Request"
  {
    Render400();
  }

  lemma QueryMetricTagsBadRequest()
    ensures ErrorMessage("error querying metric tags", 400, "Bad Request")
            == "error querying metric tags: 400 Bad Request"
  {
    Render400();
  }

  /** `delete_metric` succeeds on 204, reports a 400 with its reason, and
      needs a metric name. */
  lemma DeleteMetricReplies()
    ensures Respond(map["action" := JString("delete_metric"), "metric_name" := JString("integration.tests")],
                    Answering(Response(204, "No Content", map[])))
            == Ok(map[])
    ensures Respond(map["action" := JString("delete_metric"), "metric_name" := JString("integration.tests")],
                    Answering(Response(400, "Bad Request", map[])))
            == Error("error deleting metric: 400 Bad Request")
    ensures Respond(map["action" := JString("delete_metric")], Answering(Response(204, "No Content", map[])))
            == Error("metric name must be specified")
  {
    var command := map["action" := JString("delete_metric"), "metric_name" := JString("integration.tests")];
    PersistorProperties.DeleteMetricRoute(command);
    DeleteMetricBadRequest();
  }

  /** An empty query is forwarded, and the backend's 400 is reported. */
  lemma EmptyQueryRejectedByBackend()
    ensures Respond(map["action" := JString("query_metric_tags"), "query" := JObject(map[])],
                    Answering(Response(400, "Bad Request", map[])))
            == Error("error querying metric tags: 400 Bad Request")
  {
    var command := map["action" := JString("query_metric_tags"), "query" := JObject(map[])];
    PersistorProperties.QueryRoutes(command, QueryMetricTags);
    QueryMetricTagsBadRequest();
  }

}
