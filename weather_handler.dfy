/**
 * The weather endpoint (cmd/weatherapi/handlers/weather.go).
 *
 * The handler reads the "city" query parameter, refuses a missing or unsupported city
 * with 400, asks the weather service otherwise, and answers 500 on a service error or
 * the summary as JSON with caching headers on a result. The response writer is modelled
 * by the operations the handler performs on it, in order; JSON text and HTTP dates are
 * abstract (a body value, a time).
 */
module WeatherHandler {
  import opened Wrappers
  import opened Clock
  import opened GoText
  import PQ = ProviderQuery
  import OM = OtelMetrics

  const SupportedCity: string := "Sydney"

  const StatusOK: int := 200
  const StatusBadRequest: int := 400
  const StatusInternalServerError: int := 500

  const MissingCityMessage: string := "Missing parameter \"city\"."
  const ServiceFailureMessage: string := "Woops, something went wrong."

  /** The message for a city other than Sydney. */
  function UnsupportedCityMessage(city: string): string
  {
    "City " + Quote(city) + " is not supported. Only " + Quote(SupportedCity) + " is currently supported."
  }

  /** A JSON body: `ErrorResponse{msg}` or the weather summary. */
  datatype Body = ErrorBody(msg: string) | SummaryBody(summary: PQ.Summary)

  /** A header value: text, or a time formatted as an HTTP date. */
  datatype HeaderValue = Text(s: string) | HttpDate(t: Time)

  /** What the handler does to the response writer. */
  datatype RwOp = SetHeader(name: string, value: HeaderValue) | WriteHeader(code: int) | Encode(body: Body)

  /** What the weather service answers: a result or nil, an error or nil. */
  datatype ServiceAnswer = ServiceAnswer(result: Option<PQ.WeatherResult>, err: Option<string>)

  /** One run of the handler: its operations and whether it asked the service. */
  datatype HandlerRun = HandlerRun(ops: seq<RwOp>, askedService: bool)

  /** `req.URL.Query().Get("city")`: the first value of the parameter, "" when absent. */
  function CityParam(values: seq<string>): string
  {
    if values == [] then "" else values[0]
  }

  /** `errorResponse`: JSON content type, the status, then the message as JSON. */
  function ErrorResponse(message: string, code: int): seq<RwOp>
  {
    [SetHeader("Content-Type", Text("application/json")), WriteHeader(code), Encode(ErrorBody(message))]
  }

  /** The success response: JSON content type, public caching until the expiry, then the summary. */
  function SuccessResponse(r: PQ.WeatherResult): seq<RwOp>
  {
    [SetHeader("Content-Type", Text("application/json")), SetHeader("Cache-Control", Text("public")),
     SetHeader("Last-modified", HttpDate(r.createdAt)), SetHeader("Expires", HttpDate(r.expiry)),
     Encode(SummaryBody(r.weather))]
  }

  /**
   * The handler for a request whose "city" parameter has `cityValues`, the service
   * answering `answer` when asked. As written, the error branch does not return, so a
   * service answering both a result and an error gets both responses written.
   */
  function Handle(cityValues: seq<string>, answer: ServiceAnswer): (run: HandlerRun)
    ensures run.askedService <==> CityParam(cityValues) == SupportedCity
    ensures run.ops == [] <==> run.askedService && answer.err.None? && answer.result.None?
  {
    var city := CityParam(cityValues);
    if city == "" then HandlerRun(ErrorResponse(MissingCityMessage, StatusBadRequest), false)
    else if city != SupportedCity then HandlerRun(ErrorResponse(UnsupportedCityMessage(city), StatusBadRequest), false)
    else
      var onError := if answer.err.Some? then ErrorResponse(ServiceFailureMessage, StatusInternalServerError) else [];
      var onResult := if answer.result.Some? then SuccessResponse(answer.result.value) else [];
      HandlerRun(onError + onResult, true)
  }

  // ---------------------------------------------------------------- what the client receives

  /** The status the client receives: the first `WriteHeader`, or 200 if a body or nothing comes first. */
  function ClientStatus(ops: seq<RwOp>): int
    decreases |ops|
  {
    if ops == [] then StatusOK
    else if ops[0].WriteHeader? then ops[0].code
    else if ops[0].Encode? then StatusOK
    else ClientStatus(ops[1..])
  }

  /** The JSON bodies the client receives, in order. */
  function Bodies(ops: seq<RwOp>): seq<Body>
    decreases |ops|
  {
    if ops == [] then []
    else (if ops[0].Encode? then [ops[0].body] else []) + Bodies(ops[1..])
  }

  /**
   * The headers as set (each `Set` replaces the value); headers set after the first
   * status or body are not sent, which the success and error responses never do.
   */
  function Headers(ops: seq<RwOp>): map<string, HeaderValue>
    decreases |ops|
  {
    if ops == [] then map[]
    else
      var rest := Headers(ops[..|ops| - 1]);
      if ops[|ops| - 1].SetHeader? then rest[ops[|ops| - 1].name := ops[|ops| - 1].value] else rest
  }

  /** An error response: the given status, one JSON error body, JSON content type. */
  lemma ErrorResponseReceived(message: string, code: int)
    ensures ClientStatus(ErrorResponse(message, code)) == code
    ensures Bodies(ErrorResponse(message, code)) == [ErrorBody(message)]
    ensures Headers(ErrorResponse(message, code)) == map["Content-Type" := Text("application/json")]
  {
    var ops := ErrorResponse(message, code);
    assert ops[1..][1..][1..] == [];
    assert Bodies(ops[1..][1..]) == [ErrorBody(message)];
    assert ops[..1][..0] == [] && ops[..2][..1] == ops[..1] && ops[..3][..2] == ops[..2] && ops[..3] == ops;
    assert Headers(ops[..1]) == map["Content-Type" := Text("application/json")];
    assert Headers(ops[..2]) == Headers(ops[..2][..1]);
  }

  /** A success response: 200, the summary as the one body, and the four headers. */
  lemma SuccessResponseReceived(r: PQ.WeatherResult)
    ensures ClientStatus(SuccessResponse(r)) == StatusOK
    ensures Bodies(SuccessResponse(r)) == [SummaryBody(r.weather)]
    ensures var h := Headers(SuccessResponse(r));
            && h.Keys == {"Content-Type", "Cache-Control", "Last-modified", "Expires"}
            && h["Content-Type"] == Text("application/json") && h["Cache-Control"] == Text("public")
            && h["Last-modified"] == HttpDate(r.createdAt) && h["Expires"] == HttpDate(r.expiry)
  {
    var ops := SuccessResponse(r);
    assert ops[1..][1..][1..][1..][1..] == [];
    assert ClientStatus(ops[1..][1..][1..]) == StatusOK;
    assert ClientStatus(ops[1..]) == StatusOK;
    assert Bodies(ops[1..][1..][1..][1..]) == [SummaryBody(r.weather)];
    assert Bodies(ops[1..][1..][1..]) == [SummaryBody(r.weather)];
    assert Bodies(ops[1..][1..]) == [SummaryBody(r.weather)];
    var o0, o1 := SetHeader("Content-Type", Text("application/json")), SetHeader("Cache-Control", Text("public"));
    var o2, o3 := SetHeader("Last-modified", HttpDate(r.createdAt)), SetHeader("Expires", HttpDate(r.expiry));
    var o4 := Encode(SummaryBody(r.weather));
    HeadersSnoc([], o0);
    HeadersSnoc([o0], o1);
    HeadersSnoc([o0, o1], o2);
    HeadersSnoc([o0, o1, o2], o3);
    HeadersSnoc([o0, o1, o2, o3], o4);
    assert [] + [o0] == [o0] && [o0] + [o1] == [o0, o1] && [o0, o1] + [o2] == [o0, o1, o2];
    assert [o0, o1, o2] + [o3] == [o0, o1, o2, o3] && [o0, o1, o2, o3] + [o4] == ops;
  }

  /** Each header `Set` replaces that header's value and leaves the others. */
  lemma HeadersSnoc(ops: seq<RwOp>, op: RwOp)
    ensures Headers(ops + [op]) == if op.SetHeader? then Headers(ops)[op.name := op.value] else Headers(ops)
  {
    assert (ops + [op])[..|ops + [op]| - 1] == ops;
  }

  // ---------------------------------------------------------------- the test cases

  /** No "city" parameter, or an empty one: 400 "Missing parameter", and the service is not asked. */
  lemma MissingCity(cityValues: seq<string>, answer: ServiceAnswer)
    requires cityValues == [] || cityValues[0] == ""
    ensures var run := Handle(cityValues, answer);
            && !run.askedService
            && ClientStatus(run.ops) == StatusBadRequest && Bodies(run.ops) == [ErrorBody(MissingCityMessage)]
  {
    ErrorResponseReceived(MissingCityMessage, StatusBadRequest);
  }

  /** Any city but Sydney: 400 naming the city, and the service is not asked. */
  lemma UnsupportedCity(cityValues: seq<string>, answer: ServiceAnswer)
    requires cityValues != [] && cityValues[0] != "" && cityValues[0] != SupportedCity
    ensures var run := Handle(cityValues, answer);
            && !run.askedService
            && ClientStatus(run.ops) == StatusBadRequest
            && Bodies(run.ops) == [ErrorBody(UnsupportedCityMessage(cityValues[0]))]
  {
    ErrorResponseReceived(UnsupportedCityMessage(cityValues[0]), StatusBadRequest);
  }

  /** Sydney and a service error without a result: 500 "Woops, something went wrong.". */
  lemma ServiceErrorIs500(cityValues: seq<string>, e: string)
    requires cityValues != [] && cityValues[0] == SupportedCity
    ensures var run := Handle(cityValues, ServiceAnswer(None, Some(e)));
            && run.askedService
            && ClientStatus(run.ops) == StatusInternalServerError
            && Bodies(run.ops) == [ErrorBody(ServiceFailureMessage)]
  {
    assert ErrorResponse(ServiceFailureMessage, StatusInternalServerError) + [] ==
             ErrorResponse(ServiceFailureMessage, StatusInternalServerError);
    ErrorResponseReceived(ServiceFailureMessage, StatusInternalServerError);
  }

  /** Sydney and a result without an error: 200, the summary and the caching headers. */
  lemma ServiceResultIs200(cityValues: seq<string>, r: PQ.WeatherResult)
    requires cityValues != [] && cityValues[0] == SupportedCity
    ensures var run := Handle(cityValues, ServiceAnswer(Some(r), None));
            && run.askedService
            && ClientStatus(run.ops) == StatusOK && Bodies(run.ops) == [SummaryBody(r.weather)]
            && "Expires" in Headers(run.ops) && Headers(run.ops)["Expires"] == HttpDate(r.expiry)
  {
    assert [] + SuccessResponse(r) == SuccessResponse(r);
    SuccessResponseReceived(r);
  }

  // ---------------------------------------------------------------- with the queryer behind it

  /**
   * Behind the handler the queryer answers either a result or an error, never both, so
   * the missing `return` after the error response never writes a second response: the
   * client receives 500 exactly when the queryer fails, and the result otherwise.
   */
  lemma QueryerBehindHandler(q: PQ.Queryer, env: PQ.ReadEnv, cityValues: seq<string>)
    requires cityValues != [] && cityValues[0] == SupportedCity
    ensures var o := PQ.ReadSpec(q, env);
            var run := Handle(cityValues, ServiceAnswer(o.result, o.err));
            && (o.err.Some? ==> run.ops == ErrorResponse(ServiceFailureMessage, StatusInternalServerError))
            && (o.result.Some? ==> run.ops == SuccessResponse(o.result.value))
            && ClientStatus(run.ops) == (if o.err.Some? then StatusInternalServerError else StatusOK)
  {
    var o := PQ.ReadSpec(q, env);
    PQ.ResultXorError(q, env);
    if o.err.Some? {
      ServiceErrorIs500(cityValues, o.err.value);
    } else {
      ServiceResultIs200(cityValues, o.result.value);
    }
  }

  // ---------------------------------------------------------------- through the metrics middleware

  /** The response-writer calls the metrics recorder sees: a status, or a body of `size(b)` bytes. */
  function RecorderCalls(ops: seq<RwOp>, size: Body -> nat): (calls: seq<OM.RwCall>)
    ensures |calls| <= |ops|
    decreases |ops|
  {
    if ops == [] then []
    else
      (match ops[0]
       case WriteHeader(code) => [OM.WriteHeader(code)]
       case Encode(b) => [OM.Write(size(b), size(b))]
       case SetHeader(_, _) => []) + RecorderCalls(ops[1..], size)
  }

  /**
   * Served behind the metrics middleware (the shipped server does not install it), the
   * service-failure response reaches the recorder as a 500 then a body write: the recorder
   * as written records 200; the corrected recorder records the 500 the client receives.
   */
  lemma ServiceErrorMetrics(size: Body -> nat)
    ensures var calls := RecorderCalls(ErrorResponse(ServiceFailureMessage, StatusInternalServerError), size);
            var n := size(ErrorBody(ServiceFailureMessage));
            && calls == [OM.WriteHeader(StatusInternalServerError), OM.Write(n, n)]
            && OM.SentStatus(calls) == StatusInternalServerError
            && OM.RecordAsWritten(calls).statusCode == StatusOK
            && OM.RecordCorrected(calls).statusCode == StatusInternalServerError
  {
    var ops := ErrorResponse(ServiceFailureMessage, StatusInternalServerError);
    var n := size(ErrorBody(ServiceFailureMessage));
    assert ops[1..][1..][1..] == [];
    assert RecorderCalls(ops, size) == [OM.WriteHeader(StatusInternalServerError), OM.Write(n, n)];
    OM.AsWrittenRecordsOkAfterError(n);
    OM.CorrectedRecordsSentResponse([OM.WriteHeader(StatusInternalServerError), OM.Write(n, n)]);
  }
}
