/**
  What the persistor promises, stated against an independent reference: the
  KairosDB route table written out with literal paths, codes and messages,
  and an error-message reader that inverts `ErrorMessage`.
 */
module PersistorProperties {
  import opened Options
  import opened Json
  import opened Decimal
  import opened Routes
  import opened KairosPersistor
  import JsonValidator

  // ---------------------------------------------------------------------
  // The route table
  // ---------------------------------------------------------------------

  ghost function TableVerb(a: Action): Method {
    match a
    case AddDataPoints => Post
    case DeleteDataPoints => Post
    case QueryMetrics => Post
    case QueryMetricTags => Post
    case DeleteMetric => Delete
    case _ => Get
  }

  /** 204 for the actions that change data, 200 for those that read it. */
  ghost function TableSuccessCode(a: Action): int {
    if a == AddDataPoints || a == DeleteDataPoints || a == DeleteMetric then 204 else 200
  }

  ghost function TableErrorPrefix(a: Action): string {
    match a
    case AddDataPoints => "error adding data points"
    case DeleteDataPoints => "error deleting data points"
    case DeleteMetric => "error deleting metric"
    case ListMetricNames => "error listing metric names"
    case ListTagNames => "error listing tag names"
    case ListTagValues => "error listing tag values"
    case QueryMetrics => "error querying metrics"
    case QueryMetricTags => "error querying metric tags"
    case Version => "error requesting version"
  }

  /** What the handler for `a` needs in the command before it sends anything. */
  ghost predicate Precondition(a: Action, command: Object) {
    match a
    case AddDataPoints =>
      GetObject(command, "datapoints").Some? && JsonValidator.WellFormed(GetObject(command, "datapoints").value)
    case DeleteDataPoints => GetObject(command, "query").Some?
    case QueryMetrics => GetObject(command, "query").Some?
    case QueryMetricTags => GetObject(command, "query").Some?
    case DeleteMetric => GetString(command, "metric_name").Some?
    case _ => true
  }

  /** The path of each action, literally. */
  ghost function TablePath(a: Action, command: Object): string
    requires Precondition(a, command)
  {
    match a
    case AddDataPoints => "/api/v1/datapoints"
    case DeleteDataPoints => "/api/v1/datapoints/delete"
    case QueryMetrics => "/api/v1/datapoints/query"
    case QueryMetricTags => "/api/v1/datapoints/query/tags"
    case DeleteMetric => "/api/v1/metric/" + GetString(command, "metric_name").value
    case ListMetricNames => "/api/v1/metricnames"
    case ListTagNames => "/api/v1/tagnames"
    case ListTagValues => "/api/v1/tagvalues"
    case Version => "/api/v1/version"
  }

  /** The body of each action: the payload or the query, passed on verbatim. */
  ghost function TableBody(a: Action, command: Object): Option<Object> {
    match a
    case AddDataPoints => GetObject(command, "datapoints")
    case DeleteDataPoints => GetObject(command, "query")
    case QueryMetrics => GetObject(command, "query")
    case QueryMetricTags => GetObject(command, "query")
    case _ => None
  }

  ghost function TableRequest(a: Action, command: Object): Request
    requires Precondition(a, command)
  {
    Request(TableVerb(a), TablePath(a, command), TableBody(a, command),
            TableSuccessCode(a), TableErrorPrefix(a), TableSuccessCode(a) == 200)
  }

  // ---------------------------------------------------------------------
  // Routing
  // ---------------------------------------------------------------------

  /** The path constants, built from the common base, spell the table's paths. */
  lemma PathConstants()
    ensures AddDataPointsUri == "/api/v1/datapoints"
    ensures DeleteDataPointsUri == "/api/v1/datapoints/delete"
    ensures QueryDataPointsUri == "/api/v1/datapoints/query"
    ensures QueryDataPointsTagsUri == "/api/v1/datapoints/query/tags"
    ensures VersionUri == "/api/v1/version"
    ensures MetricNamesUri == "/api/v1/metricnames"
    ensures TagNamesUri == "/api/v1/tagnames"
    ensures TagValuesUri == "/api/v1/tagvalues"
    ensures forall name :: MetricUri(name) == "/api/v1/metric/" + name
  {
  }

  /** A command without an action is refused, whatever else it holds. */
  lemma MissingActionRefused(command: Object, backend: Request -> Response)
    requires CommandReadable(command)
    requires GetString(command, "action").None?
    ensures Handle(command) == Refuse("action must be specified")
    ensures Respond(command, backend) == Error("action must be specified")
  {
  }

  /** An action string outside the nine names is refused and quoted back. */
  lemma UnsupportedActionRefused(command: Object, name: string)
    requires CommandReadable(command)
    requires GetString(command, "action") == Some(name)
    requires forall a: Action :: ActionName(a) != name
    ensures Handle(command) == Refuse("unsupported action specified: " + name)
  {
  }

  /** `version` and the three listings send their GET with no check at all. */
  lemma UnconditionalRoutes(command: Object, a: Action)
    requires a == Version || a == ListMetricNames || a == ListTagNames || a == ListTagValues
    requires CommandReadable(command)
    requires GetString(command, "action") == Some(ActionName(a))
    ensures Handle(command) == Send(TableRequest(a, command))
    ensures TableRequest(a, command).verb == Get && TableRequest(a, command).body == None
  {
    ParseActionName(a);
    PathConstants();
    match a
    case Version => assert Handle(command) == GetPlan(VersionUri, "error requesting version");
    case ListMetricNames => assert Handle(command) == GetPlan(MetricNamesUri, "error listing metric names");
    case ListTagNames => assert Handle(command) == GetPlan(TagNamesUri, "error listing tag names");
    case ListTagValues => assert Handle(command) == GetPlan(TagValuesUri, "error listing tag values");
  }

  /** The three query-forwarding actions need a `query` object and post it. */
  lemma QueryRoutes(command: Object, a: Action)
    requires a == DeleteDataPoints || a == QueryMetrics || a == QueryMetricTags
    requires CommandReadable(command)
    requires GetString(command, "action") == Some(ActionName(a))
    ensures GetObject(command, "query").None? ==> Handle(command) == Refuse("metric query must be specified")
    ensures GetObject(command, "query").Some? ==>
              && Handle(command) == Send(TableRequest(a, command))
              && Handle(command).request.body == GetObject(command, "query")
  {
    ParseActionName(a);
    PathConstants();
    match a
    case DeleteDataPoints =>
      assert Handle(command) == QueryPlan(command, DeleteDataPointsUri, 204, "error deleting data points", false);
    case QueryMetrics =>
      assert Handle(command) == QueryPlan(command, QueryDataPointsUri, 200, "error querying metrics", true);
    case QueryMetricTags =>
      assert Handle(command) == QueryPlan(command, QueryDataPointsTagsUri, 200, "error querying metric tags", true);
  }

  /** `delete_metric` needs a name and deletes the metric's path, unescaped. */
  lemma DeleteMetricRoute(command: Object)
    requires CommandReadable(command)
    requires GetString(command, "action") == Some("delete_metric")
    ensures GetString(command, "metric_name").None? ==> Handle(command) == Refuse("metric name must be specified")
    ensures GetString(command, "metric_name").Some? ==>
              && Handle(command) == Send(TableRequest(DeleteMetric, command))
              && Handle(command).request.path == "/api/v1/metric/" + GetString(command, "metric_name").value
              && Handle(command).request.body.None?
  {
  }

  /** `add_data_points` sends only a payload the validator accepts, verbatim. */
  lemma AddDataPointsRoute(command: Object)
    requires CommandReadable(command)
    requires GetString(command, "action") == Some("add_data_points")
    ensures GetObject(command, "datapoints").None? ==>
              Handle(command) == Refuse("data points object is not specified")
    ensures GetObject(command, "datapoints").Some? && !JsonValidator.WellFormed(GetObject(command, "datapoints").value) ==>
              Handle(command) == Refuse("data points object was incorrectly formatted")
    ensures Handle(command).Send? <==>
              GetObject(command, "datapoints").Some? && JsonValidator.WellFormed(GetObject(command, "datapoints").value)
    ensures Handle(command).Send? ==>
              && Handle(command) == Send(TableRequest(AddDataPoints, command))
              && Handle(command).request.body == GetObject(command, "datapoints")
  {
  }

  /** A request goes out exactly when the action is one of the nine and its
      precondition holds, and it is then the one the table prescribes. */
  lemma {:induction false} SendFollowsTable(command: Object)
    requires CommandReadable(command)
    ensures Handle(command).Send? <==> ActionOf(command).Some? && Precondition(ActionOf(command).value, command)
    ensures Handle(command).Send? ==> Handle(command).request == TableRequest(ActionOf(command).value, command)
  {
    match ActionOf(command)
    case None =>
    case Some(a) =>
      var name := GetString(command, "action").value;
      assert ActionName(a) == name;
      match a
      case AddDataPoints => AddDataPointsRoute(command);
      case DeleteMetric => DeleteMetricRoute(command);
      case DeleteDataPoints => QueryRoutes(command, a);
      case QueryMetrics => QueryRoutes(command, a);
      case QueryMetricTags => QueryRoutes(command, a);
      case _ => UnconditionalRoutes(command, a);
  }

  // ---------------------------------------------------------------------
  // Status classification
  // ---------------------------------------------------------------------

  /** The reply to a command that is sent: success on exactly the table's
      code, with the backend's fields for reads and with none for writes;
      otherwise the table's error prefix, the code and the reason phrase. */
  lemma RespondBySuccessCode(command: Object, backend: Request -> Response)
    requires CommandReadable(command)
    requires Handle(command).Send?
    ensures ActionOf(command).Some?
    ensures
      var a := ActionOf(command).value;
      var response := backend(Handle(command).request);
      Respond(command, backend) ==
        if response.status != TableSuccessCode(a) then
          Error(TableErrorPrefix(a) + ": " + IntToString(response.status) + " " + response.reason)
        else if TableSuccessCode(a) == 200 then Ok(response.body)
        else Ok(map[])
  {
    SendFollowsTable(command);
  }

  /** Backend failures of different actions are told apart by their prefix. */
  lemma ErrorPrefixInjective(a: Action, b: Action)
    requires TableErrorPrefix(a) == TableErrorPrefix(b)
    ensures a == b
  {
  }

  /** The index of the first space in `s`, or `|s|` when there is none. */
  function FirstSpace(s: string): (k: nat)
    ensures k <= |s|
    ensures k < |s| ==> s[k] == ' '
    ensures forall i :: 0 <= i < k ==> s[i] != ' '
    decreases |s|
  {
    if |s| == 0 || s[0] == ' ' then 0
    else 1 + FirstSpace(s[1..])
  }

  /** Reads `<prefix>: <code> <reason>` back into the code and the reason. */
  function ParseErrorMessage(prefix: string, message: string): Option<(int, string)> {
    var head := prefix + ": ";
    if !(head <= message) then None
    else
      var rest := message[|head|..];
      var k := FirstSpace(rest);
      if k == |rest| then None
      else
        match ParseInt(rest[..k])
        case None => None
        case Some(code) => Some((code, rest[k + 1..]))
  }

  /** An error message determines the status code and the reason phrase it
      was made from, even when the reason itself contains spaces or digits. */
  lemma {:induction false} ErrorMessageRoundTrip(prefix: string, status: int, reason: string)
    ensures ParseErrorMessage(prefix, ErrorMessage(prefix, status, reason)) == Some((status, reason))
  {
    var head := prefix + ": ";
    var digits := IntToString(status);
    var message := ErrorMessage(prefix, status, reason);
    assert message == head + (digits + " " + reason);
    var rest := message[|head|..];
    assert rest == digits + " " + reason;
    var k := FirstSpace(rest);
    assert rest[|digits|] == ' ';
    assert forall i :: 0 <= i < |digits| ==> rest[i] == digits[i];
    assert k == |digits|;
    assert rest[..k] == digits;
    assert rest[k + 1..] == reason;
    ParseIntToString(status);
  }

  /** Distinct codes or reasons give distinct messages under one prefix. */
  lemma ErrorMessageInjective(prefix: string, s1: int, r1: string, s2: int, r2: string)
    requires ErrorMessage(prefix, s1, r1) == ErrorMessage(prefix, s2, r2)
    ensures s1 == s2 && r1 == r2
  {
    ErrorMessageRoundTrip(prefix, s1, r1);
    ErrorMessageRoundTrip(prefix, s2, r2);
  }

  // ---------------------------------------------------------------------
  // Requests on the wire and the backend
  // ---------------------------------------------------------------------

  /** A request with a body declares JSON and a `Content-Length` that reads
      back as the number of bytes actually written. */
  lemma ContentLengthMatchesPayload(request: Request, encode: Object -> seq<byte>)
    requires request.body.Some?
    ensures HeaderValue(Transmit(request, encode).headers, ContentTypeHeader) == Some("application/json")
    ensures HeaderValue(Transmit(request, encode).headers, ContentLengthHeader).Some?
    ensures ParseInt(HeaderValue(Transmit(request, encode).headers, ContentLengthHeader).value)
            == Some(|Transmit(request, encode).payload|)
  {
    var w := Transmit(request, encode);
    assert w.headers[1..] == [Header(ContentLengthHeader, IntToString(|w.payload|))];
    ParseIntToString(|w.payload|);
  }

  /** A planned request carries a body exactly when it is a POST, and every
      POST is written with the JSON headers and the encoded body. */
  lemma SentBodiesAreDeclared(command: Object, encode: Object -> seq<byte>)
    requires CommandReadable(command)
    requires Handle(command).Send?
    ensures Handle(command).request.body.Some? <==> Handle(command).request.verb == Post
    ensures Handle(command).request.verb == Post ==>
              && Transmit(Handle(command).request, encode).payload == encode(Handle(command).request.body.value)
              && HeaderValue(Transmit(Handle(command).request, encode).headers, ContentTypeHeader)
                 == Some("application/json")
              && HeaderValue(Transmit(Handle(command).request, encode).headers, ContentLengthHeader).Some?
              && ParseInt(HeaderValue(Transmit(Handle(command).request, encode).headers, ContentLengthHeader).value)
                 == Some(|encode(Handle(command).request.body.value)|)
  {
    if Handle(command).request.verb == Post {
      ContentLengthMatchesPayload(Handle(command).request, encode);
    }
  }

  /** A refused command never reaches the backend: its reply is the same
      error, whatever the backend would have answered. */
  lemma RefusedCommandSendsNothing(command: Object, b1: Request -> Response, b2: Request -> Response)
    requires CommandReadable(command)
    requires Handle(command).Refuse?
    ensures Respond(command, b1) == Respond(command, b2) == Error(Handle(command).message)
  {
  }

  /** A sent command's reply depends on the backend only through its answer
      to the one planned request. */
  lemma SentCommandConsultsOneRequest(command: Object, b1: Request -> Response, b2: Request -> Response)
    requires CommandReadable(command)
    requires Handle(command).Send?
    requires b1(Handle(command).request) == b2(Handle(command).request)
    ensures Respond(command, b1) == Respond(command, b2)
  {
  }

}
