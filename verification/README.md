# KairosDB persistor: command planning, validation and reply classification

The persistor is a vert.x bus module. It takes JSON commands from the event
bus and forwards each one to the KairosDB REST API. This project models its
decision logic as pure Dafny functions and proves what that logic promises.

- `JsonValidator.ValidateDataPoints` is the shape check on an "add data points"
  payload. It requires a `name`, a non-empty `tags` object, and either a
  `datapoints` array or both a `timestamp` and a `value`.
- `KairosPersistor.Handle` is the action switch and the nine handlers. It maps
  a command to a `Plan`. The plan is either `Refuse(message)`, where nothing is
  sent, or `Send(request)`. A request holds the method, a path under
  `/api/v1/`, the body, the success code, the error-message prefix, and whether
  a success returns the backend's body.
- `KairosPersistor.Classify` turns the backend's status code, reason phrase and
  parsed body into the bus reply, `Ok(fields)` or `Error(message)`.
- `KairosPersistor.Transmit` writes a request out: method, path,
  `Content-Type: application/json`, a `Content-Length` and the encoded bytes.
- `KairosPersistor.Respond` composes `Handle` and `Classify`. The backend is
  a function that answers the planned request; `Transmit` is stated
  separately and is not on this path.

Modules:

- `Options`: the optional value.
- `Json`: JSON values and vert.x's typed getters.
- `Decimal`: Java's `Integer.toString` and an inverse for it.
- `JsonValidator`: the validator.
- `Routes`: the path constants and the action names.
- `KairosPersistor`: planning, classification and the wire format.
- `PersistorProperties`: the route table, written out with literal paths and
  messages, and the lemmas that tie the model to it.
- `Scenarios`: the commands and payloads of the repository's tests.

A vert.x getter throws when a field holds a value of the wrong kind. Asking for
a string where a number is stored is one example. The model does not give such
inputs a meaning. Instead, `JsonValidator.Readable` and
`KairosPersistor.CommandReadable` require each field the source reads to be
absent, JSON null, or of the kind its getter expects. Both predicates follow
the source's reads in order. A field the source never reaches, because an
earlier check has already returned, is left unconstrained.

Details of the code the model keeps as they are:

- An unknown action gets exactly "unsupported action specified: <action>".
- A transport failure is not turned into an error reply, because the code
  installs no exception handler.
- `tags` only has to be a non-empty object. Its values are not checked to be
  strings.
- The contents of `datapoints` are not inspected, so an empty array passes.

## Model

| member | source | states |
|---|---|---|
| JsonValidator.ValidateDataPoints | src/main/java/com/jonnywray/vertx/JsonValidator.java:38-53 | the payload is valid exactly when it is present, has a string `name`, a non-empty `tags` object, and either a `datapoints` array or both a numeric `timestamp` and a numeric `value` |
| JsonValidator.AbsentPayloadInvalid | src/main/java/com/jonnywray/vertx/JsonValidator.java:39-41 | an absent payload is invalid |
| JsonValidator.MissingNameInvalid | src/main/java/com/jonnywray/vertx/JsonValidator.java:42-44 | without `name` a payload is invalid, whatever else it holds |
| JsonValidator.MissingOrEmptyTagsInvalid | src/main/java/com/jonnywray/vertx/JsonValidator.java:45-47 | a missing `tags` object, or one with no entries, makes the payload invalid |
| JsonValidator.SinglePointSuffices | src/main/java/com/jonnywray/vertx/JsonValidator.java:48-52 | with name and tags, a timestamp together with a value is enough |
| JsonValidator.PointsArraySuffices | src/main/java/com/jonnywray/vertx/JsonValidator.java:49-52 | with name and tags, any `datapoints` array is enough, the empty one included, even with no timestamp or value |
| JsonValidator.IncompleteSinglePointInvalid | src/main/java/com/jonnywray/vertx/JsonValidator.java:48-51 | with no points array, a missing timestamp or a missing value makes the payload invalid |
| JsonValidator.OnlyInspectedFieldsMatter | src/main/java/com/jonnywray/vertx/JsonValidator.java:38-53 | two payloads that agree on `name`, `tags`, `timestamp`, `value` and `datapoints` get the same verdict |
| JsonValidator.UninspectedUpdateIrrelevant | src/main/java/com/jonnywray/vertx/JsonValidator.java:38-53 | adding, replacing or removing any other field keeps the payload readable and the verdict unchanged |
| Decimal.NatToString | src/main/java/com/jonnywray/vertx/KairosPersistor.java:148 | the decimal rendering of a length is non-empty, all digits, and has no leading zero |
| Decimal.IntToString | src/main/java/com/jonnywray/vertx/KairosPersistor.java:138 | a rendered status code is non-empty and has no space in it; it starts with a digit exactly when the code is not negative |
| Decimal.ParseIntToString | src/main/java/com/jonnywray/vertx/KairosPersistor.java:148 | reading back the rendering of any integer gives that integer |
| Decimal.IntToStringInjective | src/main/java/com/jonnywray/vertx/KairosPersistor.java:138 | different integers render differently |
| Routes.MetricUri | src/main/java/com/jonnywray/vertx/KairosPersistor.java:47 | the delete-metric path is `/api/v1/metric/` followed by the metric name exactly as given, with no escaping |
| Routes.ParseAction | src/main/java/com/jonnywray/vertx/KairosPersistor.java:89-119 | the switch recognises a string exactly when it is the name of one of the nine actions, and then yields that action |
| Routes.ParseActionName | src/main/java/com/jonnywray/vertx/KairosPersistor.java:89-116 | every action's name reaches its own handler |
| Routes.ActionNameInjective | src/main/java/com/jonnywray/vertx/KairosPersistor.java:89-116 | no two actions share a name |
| KairosPersistor.Handle | src/main/java/com/jonnywray/vertx/KairosPersistor.java:83-120 | a command with no action is refused with "action must be specified"; a request is sent only for a recognised action; every sent path is under `/api/v1/`; a request has a body exactly when it is a POST; the success code is 200 or 204, and is 200 exactly when the body is returned |
| KairosPersistor.Classify | src/main/java/com/jonnywray/vertx/KairosPersistor.java:131-141 | the reply is `Ok` exactly on the request's success code; an `Ok` carries the backend's fields when the body is returned and no fields otherwise; an error message starts with the request's prefix and ": " |
| KairosPersistor.QueryPlan | src/main/java/com/jonnywray/vertx/KairosPersistor.java:122-213 | `delete_data_points`, `query_metrics` and `query_metric_tags` are refused with "metric query must be specified" exactly when the command has no `query` object; otherwise they POST to their own path, and the body sent is the command's `query` object unchanged |
| KairosPersistor.GetPlan | src/main/java/com/jonnywray/vertx/KairosPersistor.java:242-366 | `version` and the three listings never refuse: they send a body-less GET to their path and return the backend's body on success |
| KairosPersistor.DeleteMetricPlan | src/main/java/com/jonnywray/vertx/KairosPersistor.java:215-240 | `delete_metric` is refused with "metric name must be specified" exactly when there is no string `metric_name`; otherwise it sends a body-less DELETE, returning no body, whose path is `/api/v1/metric/` followed by exactly the command's name |
| KairosPersistor.AddDataPointsPlan | src/main/java/com/jonnywray/vertx/KairosPersistor.java:265-296 | `add_data_points` sends a request exactly when `datapoints` is an object that the validator accepts; a missing payload is refused with "data points object is not specified"; the request POSTs the payload unchanged to `/api/v1/datapoints` |
| KairosPersistor.ErrorMessage | src/main/java/com/jonnywray/vertx/KairosPersistor.java:138 | the error message of every handler (lines 138, 169, 200, 231, 254, 274, 311, 334, 357) starts with the handler's prefix and ": ", ends with a space and the reason phrase, and its length leaves exactly the rendered status code between them |
| KairosPersistor.Respond | src/main/java/com/jonnywray/vertx/KairosPersistor.java:128-150 | a refused command is answered with the refusal's message; an `Ok` reply means a request was sent and the backend answered with that request's success code; an `Ok` with fields carries the backend's body; an error after sending starts with the request's prefix |
| KairosPersistor.Transmit | src/main/java/com/jonnywray/vertx/KairosPersistor.java:146-150 | the wire request keeps the planned method and path; a request with a body writes exactly the encoded bytes, and a body-less one writes no headers and no bytes |
| PersistorProperties.PathConstants | src/main/java/com/jonnywray/vertx/KairosPersistor.java:41-52 | the path constants built from `/api/v1/` spell the nine KairosDB paths |
| PersistorProperties.MissingActionRefused | src/main/java/com/jonnywray/vertx/KairosPersistor.java:84-88 | without an action the command is refused with "action must be specified", whatever the backend would answer |
| PersistorProperties.UnsupportedActionRefused | src/main/java/com/jonnywray/vertx/KairosPersistor.java:117-118 | an action string that names none of the nine actions is refused with "unsupported action specified: " and the string |
| PersistorProperties.UnconditionalRoutes | src/main/java/com/jonnywray/vertx/KairosPersistor.java:242-366 | `version` and the three listings always send a body-less GET to their path, expecting 200 with the body returned, and check no command field |
| PersistorProperties.QueryRoutes | src/main/java/com/jonnywray/vertx/KairosPersistor.java:122-213 | `delete_data_points`, `query_metrics` and `query_metric_tags` are refused with "metric query must be specified" when there is no query; otherwise they POST the query object unchanged to the table's path |
| PersistorProperties.DeleteMetricRoute | src/main/java/com/jonnywray/vertx/KairosPersistor.java:215-240 | `delete_metric` is refused with "metric name must be specified" when there is no name; otherwise it sends a body-less DELETE to "/api/v1/metric/" followed by the name |
| PersistorProperties.AddDataPointsRoute | src/main/java/com/jonnywray/vertx/KairosPersistor.java:265-296 | a missing payload is refused with "data points object is not specified"; a malformed one is refused with "data points object was incorrectly formatted"; a request is sent exactly when the payload is well formed, and it POSTs that payload unchanged to `/api/v1/datapoints` |
| PersistorProperties.SendFollowsTable | src/main/java/com/jonnywray/vertx/KairosPersistor.java:83-120 | a request is sent exactly when the action is recognised and its required field is present and valid; the request is then the one the route table prescribes |
| PersistorProperties.RespondBySuccessCode | src/main/java/com/jonnywray/vertx/KairosPersistor.java:122-366 | for every sent command, the reply succeeds only on the table's code (204 for the three writes, 200 for the reads); a read's reply carries the backend's fields and a write's carries none; any other code gives "<prefix>: <code> <reason>" with the action's own prefix |
| PersistorProperties.ErrorPrefixInjective | src/main/java/com/jonnywray/vertx/KairosPersistor.java:138 | the nine error prefixes are distinct, so a backend error names its action |
| PersistorProperties.FirstSpace | src/main/java/com/jonnywray/vertx/KairosPersistor.java:138 | finds the space that ends the status code in an error message: the first space, or the end of the string when there is none |
| PersistorProperties.ErrorMessageRoundTrip | src/main/java/com/jonnywray/vertx/KairosPersistor.java:138 | the status code and the reason phrase can be read back from an error message, even when the reason contains spaces or digits |
| PersistorProperties.ErrorMessageInjective | src/main/java/com/jonnywray/vertx/KairosPersistor.java:138 | under one prefix, different codes or reasons give different messages |
| PersistorProperties.ContentLengthMatchesPayload | src/main/java/com/jonnywray/vertx/KairosPersistor.java:146-150 | a request with a body sends `Content-Type: application/json` and a `Content-Length` that reads back as the number of bytes written |
| PersistorProperties.SentBodiesAreDeclared | src/main/java/com/jonnywray/vertx/KairosPersistor.java:146-150 | a sent request carries a body exactly when it is a POST, and every POST (this code and its copies at lines 177-181, 208-212 and 291-295) writes the encoded body under `Content-Type: application/json` and a `Content-Length` that reads back as its byte length |
| PersistorProperties.RefusedCommandSendsNothing | src/main/java/com/jonnywray/vertx/KairosPersistor.java:281-290 | a refused command gets the same error reply whatever the backend would answer, so no request is sent; this covers the add-data-points request that is opened but never ended |
| PersistorProperties.SentCommandConsultsOneRequest | src/main/java/com/jonnywray/vertx/KairosPersistor.java:128-150 | the reply to a sent command depends on the backend only through its answer to the one planned request |
| Scenarios.ValidPayloads | src/test/java/com/jonnywray/vertx/kairosdb/unit/JsonValidatorTest.java:35-83 | the tests' single-point and multi-point payloads are valid |
| Scenarios.SinglePointFieldsRequired | src/test/java/com/jonnywray/vertx/kairosdb/unit/JsonValidatorTest.java:42-76 | the single-point payload becomes invalid without its name, timestamp, value or tags |
| Scenarios.MultiplePointsFieldsRequired | src/test/java/com/jonnywray/vertx/kairosdb/unit/JsonValidatorTest.java:85-110 | the multi-point payload becomes invalid without its name, tags or points |
| Scenarios.UnknownActionRefused | src/test/java/com/jonnywray/vertx/kairosdb/integration/KairosPersistorIT.java:406-420 | action "invalid" is answered "unsupported action specified: invalid" |
| Scenarios.NoActionRefused | src/main/java/com/jonnywray/vertx/KairosPersistor.java:84-88 | an empty command is answered "action must be specified" |
| Scenarios.AddDataPointsWithoutPayload | src/test/java/com/jonnywray/vertx/kairosdb/integration/KairosPersistorIT.java:372-386 | `add_data_points` with no payload is answered "data points object is not specified" |
| Scenarios.AddDataPointsWithoutTags | src/test/java/com/jonnywray/vertx/kairosdb/integration/KairosPersistorIT.java:388-403 | `add_data_points` with a payload lacking tags is answered with an error, and nothing is sent |
| Scenarios.VersionReply | src/test/java/com/jonnywray/vertx/kairosdb/integration/KairosPersistorIT.java:313-328 | a backend answering 200 with a version field gives an `Ok` reply carrying that field |
| Scenarios.DeleteMetricReplies | src/main/java/com/jonnywray/vertx/KairosPersistor.java:226-233 | `delete_metric` is answered `Ok` on 204 and "error deleting metric: 400 Bad Request" on a 400; without a name it is answered "metric name must be specified" |
| Scenarios.EmptyQueryRejectedByBackend | src/test/java/com/jonnywray/vertx/kairosdb/integration/KairosPersistorIT.java:109-125 | an empty tag query is forwarded, and the backend's 400 comes back as "error querying metric tags: 400 Bad Request" |

## Left out

- Start-up and shutdown are not modelled. This covers reading `address`, `host` and `port` with their defaults, building the HTTP client, registering on the event bus, and closing the client. They are plumbing around library calls. Host and port never affect a path.
- The HTTP round trip and its asynchronous callbacks become the `backend` parameter of `Respond`.
- Logging of backend errors is not modelled. It has no effect on the reply.
- Transport failures are not modelled. The source installs no exception handler, so such a command gets no reply, and the model invents no mapping for it.
- JSON encoding is the abstract parameter `encode` of `Transmit`, which covers both `encode()` and the conversion to bytes. The bytes counted for `Content-Length` are taken to be the bytes written. The platform-charset detail of `getBytes()` is left out.
- PersistorProperties.ContentLengthMatchesPayload: the declared length equals the length of the payload as `encode` gives it. The source counts the bytes of `getBytes()` in the platform charset (KairosPersistor.java:148) but writes the string with `write(String)` (KairosPersistor.java:149), so the guarantee rests on those two encodings producing the same bytes.
- Parsing the backend's response is not modelled: a `Response` carries the body already parsed. A body that is not valid JSON is out of scope.
- A field of the wrong kind makes a vert.x getter throw. Such commands are excluded by the `Readable` and `CommandReadable` preconditions, so no reply is modelled for them.
- JSON numbers are integers. Fractional values are not modelled.
- The reply is the abstract `Ok(fields)` or `Error(message)`. How `sendOK` and `sendError` add the `status` field comes from a base class that is not part of this model.
- The older integration test under `src/test/java/com/jonnywray/vertx/integration/java/` is not modelled. It uses another bus address and expects a capitalised message that the code does not produce.
- The version string and the `queries` and `results` arrays in the integration tests come from a live KairosDB server, so they appear only as backend-supplied fields.
