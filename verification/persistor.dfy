/**
  The decision logic of the KairosDB persistor, with the HTTP client and the
  event bus taken out.

  `Handle` turns an inbound command into a `Plan`: either a refusal, where no
  request is sent and the reply is an error, or one outbound `Request`.
  `Classify` turns the backend's response to that request into the reply.
  `Transmit` gives the request's bytes on the wire: the method, the path, the
  JSON headers and the encoded body. `Respond` composes `Handle` and
  `Classify`, with a backend given as a function that answers the planned
  request.
 */
module KairosPersistor {
  import opened Options
  import opened Json
  import opened Decimal
  import opened Routes
  import JsonValidator

  const JsonContentType: string := "application/json"
  const ContentTypeHeader: string := "Content-Type"
  const ContentLengthHeader: string := "Content-Length"

  datatype Method = Get | Post | Delete

  /** One outbound call and how its response is to be judged: the status code
      that means success, the prefix of the error message otherwise, and
      whether a successful reply carries the backend's JSON body. */
  datatype Request = Request(
    verb: Method,
    path: string,
    body: Option<Object>,
    successCode: int,
    errorPrefix: string,
    returnsBody: bool)

  datatype Plan = Refuse(message: string) | Send(request: Request)

  /** The reply sent back over the bus: `sendOK` with the given fields, or
      `sendError` with a message. */
  datatype Reply = Ok(fields: Object) | Error(message: string)

  /** What the backend answers: status code, reason phrase and, for the
      actions that read it, the response body already parsed as JSON. */
  datatype Response = Response(status: int, reason: string, body: Object)

  newtype byte = x: int | 0 <= x < 256

  datatype Header = Header(name: string, value: string)

  /** A request as written to the connection. */
  datatype Wire = Wire(verb: Method, path: string, headers: seq<Header>, payload: seq<byte>)

  /** The action named by the command, if its `action` is one of the nine. */
  function ActionOf(command: Object): Option<Action> {
    match GetString(command, "action")
    case None => None
    case Some(name) => ParseAction(name)
  }

  /** The fields the handler for `a` reads do not make a getter throw. */
  predicate HandlerReadable(a: Action, command: Object) {
    match a
    case AddDataPoints =>
      && Conforms(command, "datapoints", KObject)
      && (GetObject(command, "datapoints").Some? ==>
            JsonValidator.Readable(GetObject(command, "datapoints").value))
    case DeleteDataPoints => Conforms(command, "query", KObject)
    case QueryMetrics => Conforms(command, "query", KObject)
    case QueryMetricTags => Conforms(command, "query", KObject)
    case DeleteMetric => Conforms(command, "metric_name", KString)
    case _ => true
  }

  /** Handling `command` does not throw: `action` is a string or absent, and
      the handler it selects can read its own fields. */
  predicate CommandReadable(command: Object) {
    && Conforms(command, "action", KString)
    && (ActionOf(command).Some? ==> HandlerReadable(ActionOf(command).value, command))
  }

  /** The handlers that forward the command's `query` object as a POST body. */
  function QueryPlan(command: Object, path: string, successCode: int, errorPrefix: string, returnsBody: bool): (p: Plan)
    ensures p.Refuse? <==> GetObject(command, "query").None?
    ensures p.Refuse? ==> p.message == "metric query must be specified"
    ensures p.Send? ==> p.request.verb == Post && p.request.path == path
    ensures p.Send? ==> p.request.body.Some? && command["query"] == JObject(p.request.body.value)
  {
    match GetObject(command, "query")
    case None => Refuse("metric query must be specified")
    case Some(query) => Send(Request(Post, path, Some(query), successCode, errorPrefix, returnsBody))
  }

  /** The handlers that issue a body-less GET and return the backend's body. */
  function GetPlan(path: string, errorPrefix: string): (p: Plan)
    ensures p.Send? && p.request.verb == Get && p.request.path == path
    ensures p.request.body.None? && p.request.returnsBody
  {
    Send(Request(Get, path, None, 200, errorPrefix, true))
  }

  /** The metric's name travels in the path, not in a body. */
  function DeleteMetricPlan(command: Object): (p: Plan)
    ensures p.Refuse? <==> GetString(command, "metric_name").None?
    ensures p.Refuse? ==> p.message == "metric name must be specified"
    ensures p.Send? ==> p.request.verb == Delete && p.request.body.None? && !p.request.returnsBody
    ensures p.Send? ==> BaseUri + "metric/" <= p.request.path
    ensures p.Send? ==> command["metric_name"] == JString(p.request.path[|BaseUri + "metric/"|..])
  {
    match GetString(command, "metric_name")
    case None => Refuse("metric name must be specified")
    case Some(name) => Send(Request(Delete, MetricUri(name), None, 204, "error deleting metric", false))
  }

  /** The source opens the POST before checking the payload, but on either
      failure returns without ending it, so nothing reaches the backend. */
  function AddDataPointsPlan(command: Object): (p: Plan)
    requires HandlerReadable(AddDataPoints, command)
    ensures p.Send? <==> "datapoints" in command && command["datapoints"].JObject?
                         && JsonValidator.WellFormed(command["datapoints"].fields)
    ensures GetObject(command, "datapoints").None? ==> p == Refuse("data points object is not specified")
    ensures p.Send? ==> p.request.verb == Post && p.request.path == AddDataPointsUri
    ensures p.Send? ==> p.request.body == Some(command["datapoints"].fields)
  {
    match GetObject(command, "datapoints")
    case None => Refuse("data points object is not specified")
    case Some(dataPoints) =>
      if !JsonValidator.ValidateDataPoints(Some(dataPoints)) then
        Refuse("data points object was incorrectly formatted")
      else
        Send(Request(Post, AddDataPointsUri, Some(dataPoints), 204, "error adding data points", false))
  }

  /** `handle`: the action switch and the nine handlers' decisions. */
  function Handle(command: Object): (p: Plan)
    requires CommandReadable(command)
    ensures GetString(command, "action").None? ==> p == Refuse("action must be specified")
    ensures p.Send? ==> ActionOf(command).Some?
    ensures p.Send? ==> BaseUri <= p.request.path
    ensures p.Send? ==> (p.request.body.Some? <==> p.request.verb == Post)
    ensures p.Send? ==> p.request.successCode in {200, 204}
    ensures p.Send? ==> (p.request.returnsBody <==> p.request.successCode == 200)
  {
    match GetString(command, "action")
    case None => Refuse("action must be specified")
    case Some(name) =>
      match ParseAction(name)
      case None => Refuse("unsupported action specified: " + name)
      case Some(AddDataPoints) => AddDataPointsPlan(command)
      case Some(DeleteDataPoints) =>
        QueryPlan(command, DeleteDataPointsUri, 204, "error deleting data points", false)
      case Some(DeleteMetric) => DeleteMetricPlan(command)
      case Some(ListMetricNames) => GetPlan(MetricNamesUri, "error listing metric names")
      case Some(ListTagNames) => GetPlan(TagNamesUri, "error listing tag names")
      case Some(ListTagValues) => GetPlan(TagValuesUri, "error listing tag values")
      case Some(QueryMetrics) =>
        QueryPlan(command, QueryDataPointsUri, 200, "error querying metrics", true)
      case Some(QueryMetricTags) =>
        QueryPlan(command, QueryDataPointsTagsUri, 200, "error querying metric tags", true)
      case Some(Version) => GetPlan(VersionUri, "error requesting version")
  }

  /** The message of a backend failure: `<prefix>: <code> <reason>`. */
  function ErrorMessage(prefix: string, status: int, reason: string): (r: string)
    ensures prefix + ": " <= r
    ensures |r| == |prefix| + 2 + |IntToString(status)| + 1 + |reason|
    ensures r[|r| - |reason|..] == reason && r[|r| - |reason| - 1] == ' '
  {
    prefix + ": " + IntToString(status) + " " + reason
  }

  /** The response handler: exactly the request's success code is success;
      every other code, informational and redirect codes included, is an
      error that quotes the code and the reason phrase. */
  function Classify(request: Request, response: Response): (reply: Reply)
    ensures reply.Ok? <==> response.status == request.successCode
    ensures reply.Ok? && request.returnsBody ==> reply.fields == response.body
    ensures reply.Ok? && !request.returnsBody ==> reply.fields == map[]
    ensures reply.Error? ==> request.errorPrefix + ": " <= reply.message
  {
    if response.status == request.successCode then
      if request.returnsBody then Ok(response.body) else Ok(map[])
    else
      Error(ErrorMessage(request.errorPrefix, response.status, response.reason))
  }

  /** The request on the wire. `encode` stands for the JSON encoder followed
      by the conversion to bytes; a request with a body declares it as JSON
      and gives its length in bytes, a body-less one is simply ended. */
  function Transmit(request: Request, encode: Object -> seq<byte>): (w: Wire)
    ensures w.verb == request.verb && w.path == request.path
    ensures request.body.None? ==> w.headers == [] && w.payload == []
    ensures request.body.Some? ==> w.payload == encode(request.body.value)
  {
    match request.body
    case None => Wire(request.verb, request.path, [], [])
    case Some(o) =>
      var bytes := encode(o);
      Wire(request.verb, request.path,
           [Header(ContentTypeHeader, JsonContentType),
            Header(ContentLengthHeader, IntToString(|bytes|))],
           bytes)
  }

  /** The value of the first header called `name`. */
  function HeaderValue(headers: seq<Header>, name: string): (r: Option<string>)
    ensures r.Some? ==> exists i :: 0 <= i < |headers| && headers[i] == Header(name, r.value)
    ensures r.None? ==> forall i :: 0 <= i < |headers| ==> headers[i].name != name
  {
    if |headers| == 0 then None
    else if headers[0].name == name then Some(headers[0].value)
    else
      var r := HeaderValue(headers[1..], name);
      assert forall i :: 1 <= i < |headers| ==> headers[i] == headers[1..][i - 1];
      r
  }

  /** The reply to `command` when the backend answers requests as `backend`
      does. A refused command never consults the backend. */
  function Respond(command: Object, backend: Request -> Response): (r: Reply)
    requires CommandReadable(command)
    ensures Handle(command).Refuse? ==> r == Error(Handle(command).message)
    ensures r.Ok? ==> Handle(command).Send?
                      && backend(Handle(command).request).status == Handle(command).request.successCode
    ensures r.Ok? && r.fields != map[] ==> r.fields == backend(Handle(command).request).body
    ensures Handle(command).Send? && r.Error? ==> Handle(command).request.errorPrefix + ": " <= r.message
  {
    match Handle(command)
    case Refuse(message) => Error(message)
    case Send(request) => Classify(request, backend(request))
  }

}
