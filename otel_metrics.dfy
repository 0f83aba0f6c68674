/**
 * HTTP server metrics middleware (internal/otelmetrics/metrics.go).
 *
 * Each request through the middleware is counted as in progress under its
 * (protocol, method, route template) key while the next handler runs; the handler's
 * response is watched through a recorder that notes the status code and the bytes
 * written, and afterwards the response size and one request are recorded under those
 * attributes. The OpenTelemetry instruments are abstract: what is recorded is returned.
 * The handler is modelled by the calls it makes on the response writer.
 */
module OtelMetrics {
  import opened Wrappers

  // ---------------------------------------------------------------- names

  const ResponseSizeBytesName: string := "response_size_bytes"
  const RequestDurationSecondsName: string := "request_duration_seconds"
  const RequestCountName: string := "request_count"
  const RequestsInProgressName: string := "requests_in_progress"

  const RequestProtoAttributeKey: string := "proto"
  const ResponseStatusAttributeKey: string := "status"
  const RequestMethodAttributeKey: string := "method"
  const RequestPathAttributeKey: string := "path"

  const StatusOK: int := 200

  // ---------------------------------------------------------------- set-up

  /** Which of the set-up steps of `MuxMiddleware` failed, with the meter's error. */
  datatype SetupFailures = SetupFailures(responseSizeBytes: Option<string>, requestDurationSeconds: Option<string>,
                                         requestCount: Option<string>, requestsInProgress: Option<string>,
                                         registerCallback: Option<string>)

  /**
   * The error `MuxMiddleware` returns: the first failing step, in creation order, wrapped
   * with what it was creating; none when every step succeeds.
   */
  function SetupError(f: SetupFailures): (err: Option<string>)
    ensures err.None? <==> f == SetupFailures(None, None, None, None, None)
  {
    if f.responseSizeBytes.Some? then Some("create response_size_bytes metric: " + f.responseSizeBytes.value)
    else if f.requestDurationSeconds.Some? then Some("create request_duration_seconds metric: " + f.requestDurationSeconds.value)
    else if f.requestCount.Some? then Some("create request_count metric: " + f.requestCount.value)
    else if f.requestsInProgress.Some? then Some("create requests_in_progress metric: " + f.requestsInProgress.value)
    else if f.registerCallback.Some? then Some("register callback for requests_in_progress metric: " + f.registerCallback.value)
    else None
  }

  /**
   * The first failing step, in creation order, decides the error, whatever fails later;
   * each step's error is wrapped with what it was creating.
   */
  lemma FirstSetupFailureReported(f: SetupFailures)
    ensures f.responseSizeBytes.Some? ==>
              SetupError(f) == Some("create response_size_bytes metric: " + f.responseSizeBytes.value)
    ensures f.responseSizeBytes.None? && f.requestDurationSeconds.Some? ==>
              SetupError(f) == Some("create request_duration_seconds metric: " + f.requestDurationSeconds.value)
    ensures f.responseSizeBytes.None? && f.requestDurationSeconds.None? && f.requestCount.Some? ==>
              SetupError(f) == Some("create request_count metric: " + f.requestCount.value)
    ensures f.responseSizeBytes.None? && f.requestDurationSeconds.None? && f.requestCount.None?
            && f.requestsInProgress.Some? ==>
              SetupError(f) == Some("create requests_in_progress metric: " + f.requestsInProgress.value)
    ensures f.responseSizeBytes.None? && f.requestDurationSeconds.None? && f.requestCount.None?
            && f.requestsInProgress.None? && f.registerCallback.Some? ==>
              SetupError(f) == Some("register callback for requests_in_progress metric: " + f.registerCallback.value)
  {
  }

  // ---------------------------------------------------------------- 64-bit byte count

  const Two63: int := 0x8000_0000_0000_0000
  const Two64: int := 0x1_0000_0000_0000_0000

  /** Go's `int64` arithmetic: the value wrapped into [-2^63, 2^63). */
  function Wrap64(x: int): (r: int)
    ensures -Two63 <= r < Two63
    ensures (r - x) % Two64 == 0
  {
    (x + Two63) % Two64 - Two63
  }

  /** Wrapping after each addition is wrapping once at the end. */
  lemma WrapAdd(a: int, b: int)
    ensures Wrap64(Wrap64(a) + b) == Wrap64(a + b)
  {
    var q := (a + Two63) / Two64;
    assert Wrap64(a) + b + Two63 == (a + b + Two63) - q * Two64;
    ModShift(a + b + Two63, q);
  }

  lemma ModShift(x: int, q: int)
    ensures (x - q * Two64) % Two64 == x % Two64
  {
  }

  // ---------------------------------------------------------------- the response recorder

  /**
   * A call the handler makes on the response writer: `Write` of `size` bytes, of which the
   * wrapped writer reports `written` as written, or `WriteHeader(code)`.
   */
  datatype RwCall = Write(size: nat, written: nat) | WriteHeader(code: int)

  /** What the recorder holds once the handler returns: the status code and the byte count. */
  datatype Record = Record(statusCode: int, count: int)

  /** The bytes the wrapped writer reports written, in total. */
  function TotalWritten(calls: seq<RwCall>): nat
    decreases |calls|
  {
    if calls == [] then 0
    else TotalWritten(calls[..|calls| - 1]) + (if calls[|calls| - 1].Write? then calls[|calls| - 1].written else 0)
  }

  /**
   * The status code the client receives: the first `WriteHeader` before any `Write`;
   * 200 when a `Write` comes first or the handler writes nothing at all (later
   * `WriteHeader` calls are superfluous and ignored).
   */
  function SentStatus(calls: seq<RwCall>): int
  {
    if calls != [] && calls[0].WriteHeader? then calls[0].code else StatusOK
  }

  /** The recorder as written: every `Write` sets 200, every `WriteHeader` sets its code. */
  function AsWrittenStep(r: Record, c: RwCall): Record
  {
    match c
    case Write(_, written) => Record(StatusOK, Wrap64(r.count + written))
    case WriteHeader(code) => r.(statusCode := code)
  }

  /** The record of the recorder as written, starting from the zero value `rwRecorder{}`. */
  function RecordAsWritten(calls: seq<RwCall>): Record
    decreases |calls|
  {
    if calls == [] then Record(0, 0)
    else AsWrittenStep(RecordAsWritten(calls[..|calls| - 1]), calls[|calls| - 1])
  }

  /**
   * An error response written as the handlers write one (the status, then the body) is
   * recorded as 200, although 500 was sent.
   */
  lemma AsWrittenRecordsOkAfterError(n: nat)
    ensures SentStatus([WriteHeader(500), Write(n, n)]) == 500
    ensures RecordAsWritten([WriteHeader(500), Write(n, n)]).statusCode == StatusOK
  {
    assert [WriteHeader(500), Write(n, n)][..1] == [WriteHeader(500)];
    assert [WriteHeader(500)][..0] == [];
  }

  /** A handler that writes nothing is recorded with status 0, although 200 is sent. */
  lemma AsWrittenRecordsZeroWithoutWrites()
    ensures SentStatus([]) == StatusOK && RecordAsWritten([]).statusCode == 0
  {
  }

  /** The state of the corrected recorder: the status is fixed by the first call only. */
  datatype RecorderState = RecorderState(statusCode: int, count: int, wroteHeader: bool)

  /** The corrected recorder's initial state: status 200 until the handler says otherwise. */
  const InitialRecorder: RecorderState := RecorderState(StatusOK, 0, false)

  /** One call on the corrected recorder: only the first call fixes the status. */
  function CorrectedStep(s: RecorderState, c: RwCall): RecorderState
  {
    match c
    case Write(_, written) =>
      RecorderState(if s.wroteHeader then s.statusCode else StatusOK, Wrap64(s.count + written), true)
    case WriteHeader(code) =>
      if s.wroteHeader then s else RecorderState(code, s.count, true)
  }

  function CorrectedState(calls: seq<RwCall>): RecorderState
    decreases |calls|
  {
    if calls == [] then InitialRecorder
    else CorrectedStep(CorrectedState(calls[..|calls| - 1]), calls[|calls| - 1])
  }

  /** The corrected record. */
  function RecordCorrected(calls: seq<RwCall>): Record
  {
    Record(CorrectedState(calls).statusCode, CorrectedState(calls).count)
  }

  /**
   * The corrected recorder records the status code the client receives, and the bytes
   * the wrapped writer reports, as an `int64` total.
   */
  lemma {:induction false} CorrectedRecordsSentResponse(calls: seq<RwCall>)
    ensures RecordCorrected(calls).statusCode == SentStatus(calls)
    ensures RecordCorrected(calls).count == Wrap64(TotalWritten(calls))
    ensures CorrectedState(calls).wroteHeader <==> calls != []
    decreases |calls|
  {
    if calls != [] {
      var init := calls[..|calls| - 1];
      CorrectedRecordsSentResponse(init);
      WrapAdd(TotalWritten(init), if calls[|calls| - 1].Write? then calls[|calls| - 1].written else 0);
      if init != [] {
        assert init[0] == calls[0];
      }
    }
  }

  /** The as-written recorder counts the same bytes; only the status differs. */
  lemma {:induction false} AsWrittenCountsBytes(calls: seq<RwCall>)
    ensures RecordAsWritten(calls).count == Wrap64(TotalWritten(calls))
    decreases |calls|
  {
    if calls != [] {
      var init := calls[..|calls| - 1];
      AsWrittenCountsBytes(init);
      WrapAdd(TotalWritten(init), if calls[|calls| - 1].Write? then calls[|calls| - 1].written else 0);
    }
  }

  /**
   * `rwRecorder` as written: wraps the response writer, forwarding every call to it
   * (`forwarded`) while noting the status code and the byte count. The zero value holds
   * status 0; every `Write` sets 200 and every `WriteHeader` overwrites the status.
   */
  class RwRecorder {
    var statusCode: int
    var count: int
    var forwarded: seq<RwCall>

    /** `rwRecorder{ResponseWriter: rw}`: the zero status and count. */
    constructor ()
      ensures Record(statusCode, count) == RecordAsWritten([]) && forwarded == []
    {
      statusCode, count, forwarded := 0, 0, [];
    }

    /** `Write`: note 200, forward the bytes, count what the wrapped writer reports and return it. */
    method Write(size: nat, written: nat) returns (n: nat)
      modifies this
      ensures Record(statusCode, count) == AsWrittenStep(old(Record(statusCode, count)), RwCall.Write(size, written))
      ensures forwarded == old(forwarded) + [RwCall.Write(size, written)]
      ensures n == written
    {
      statusCode := StatusOK;
      forwarded := forwarded + [RwCall.Write(size, written)];
      n := written;
      count := Wrap64(count + n);
    }

    /** `WriteHeader`: note the code, replacing any earlier one, and forward it. */
    method WriteHeader(code: int)
      modifies this
      ensures Record(statusCode, count) == AsWrittenStep(old(Record(statusCode, count)), RwCall.WriteHeader(code))
      ensures forwarded == old(forwarded) + [RwCall.WriteHeader(code)]
    {
      statusCode := code;
      forwarded := forwarded + [RwCall.WriteHeader(code)];
    }
  }

  /**
   * The corrected recorder: like `RwRecorder`, but the status is fixed by the first call
   * only, as the client receives it (see CorrectedStep).
   */
  class CorrectedRwRecorder {
    var statusCode: int
    var count: int
    var wroteHeader: bool
    var forwarded: seq<RwCall>

    /** A recorder around a fresh response writer: status 200 until the handler says otherwise. */
    constructor ()
      ensures RecorderState(statusCode, count, wroteHeader) == InitialRecorder && forwarded == []
    {
      statusCode, count, wroteHeader, forwarded := StatusOK, 0, false, [];
    }

    /** `Write`: forward the bytes, count what the wrapped writer reports and return it. */
    method Write(size: nat, written: nat) returns (n: nat)
      modifies this
      ensures RecorderState(statusCode, count, wroteHeader) ==
                CorrectedStep(old(RecorderState(statusCode, count, wroteHeader)), RwCall.Write(size, written))
      ensures forwarded == old(forwarded) + [RwCall.Write(size, written)]
      ensures n == written
    {
      if !wroteHeader {
        statusCode := StatusOK;
        wroteHeader := true;
      }
      forwarded := forwarded + [RwCall.Write(size, written)];
      n := written;
      count := Wrap64(count + n);
    }

    /** `WriteHeader`: note the code unless a status was already fixed, and forward it. */
    method WriteHeader(code: int)
      modifies this
      ensures RecorderState(statusCode, count, wroteHeader) ==
                CorrectedStep(old(RecorderState(statusCode, count, wroteHeader)), RwCall.WriteHeader(code))
      ensures forwarded == old(forwarded) + [RwCall.WriteHeader(code)]
    {
      if !wroteHeader {
        statusCode := code;
        wroteHeader := true;
      }
      forwarded := forwarded + [RwCall.WriteHeader(code)];
    }
  }

  // ---------------------------------------------------------------- the in-progress counter

  /** `requestCounterKey`. */
  datatype RequestKey = RequestKey(proto: string, httpMethod: string, path: string)

  /** The count of `key` in `counts`; an absent key counts 0, as Go's map zero value. */
  function CountOf(counts: map<RequestKey, int>, key: RequestKey): int
  {
    if key in counts then counts[key] else 0
  }

  /** `requestCounter`: in-progress counts per key. */
  class RequestCounter {
    var countMap: map<RequestKey, int>

    /** `newRequestCounter`. */
    constructor ()
      ensures countMap == map[]
    {
      countMap := map[];
    }

    /** `Add`: increment the count of `key` by `i`; other keys are unchanged. */
    method Add(key: RequestKey, i: int)
      modifies this
      ensures countMap == old(countMap)[key := CountOf(old(countMap), key) + i]
    {
      countMap := countMap[key := CountOf(countMap, key) + i];
    }

    /** `Get`: a copy of every key's count, built entry by entry. */
    method Get() returns (counts: map<RequestKey, int>)
      ensures counts == countMap
    {
      counts := map[];
      var rest := countMap.Keys;
      while rest != {}
        invariant rest <= countMap.Keys
        invariant counts.Keys == countMap.Keys - rest
        invariant forall k :: k in counts ==> counts[k] == countMap[k]
        decreases |rest|
      {
        var k :| k in rest;
        counts := counts[k := countMap[k]];
        rest := rest - {k};
      }
    }
  }

  /** Adding then subtracting the same amount leaves the count as it was, the key now present. */
  lemma AddThenSubtract(counts: map<RequestKey, int>, key: RequestKey, i: int)
    ensures var up := counts[key := CountOf(counts, key) + i];
            var down := up[key := CountOf(up, key) - i];
            && CountOf(down, key) == CountOf(counts, key)
            && down == counts[key := CountOf(counts, key)]
  {
  }

  // ---------------------------------------------------------------- the middleware

  /** An attribute value: a string or an integer. */
  datatype AttrValue = Str(s: string) | Int(i: int)

  /** The attributes a request's measurements carry, in order. */
  function Attributes(proto: string, status: int, httpMethod: string, path: string): seq<(string, AttrValue)>
  {
    [(RequestProtoAttributeKey, Str(proto)), (ResponseStatusAttributeKey, Int(status)),
     (RequestMethodAttributeKey, Str(httpMethod)), (RequestPathAttributeKey, Str(path))]
  }

  /** What one request records: the response size and a count of one, under `attributes`. */
  datatype Measurement = Measurement(attributes: seq<(string, AttrValue)>, responseSizeBytes: int, requestCount: int)

  /** The incoming request's protocol and method, and its route's path template. */
  datatype Request = Request(proto: string, httpMethod: string, path: string)

  /**
   * The middleware around a handler making `handler`'s calls: the request is in progress
   * while the handler runs (`observed` is the counts a gauge callback reads then), the
   * wrapped writer receives exactly the handler's calls, the measurement carries the sent
   * status and the bytes written, and afterwards the in-progress count is as before.
   */
  method ServeWithMetrics(counter: RequestCounter, req: Request, handler: seq<RwCall>)
    returns (observed: map<RequestKey, int>, forwarded: seq<RwCall>, m: Measurement)
    modifies counter
    ensures var key := RequestKey(req.proto, req.httpMethod, req.path);
            && counter.countMap == old(counter.countMap)[key := CountOf(old(counter.countMap), key)]
            && CountOf(observed, key) == CountOf(old(counter.countMap), key) + 1
            && forwarded == handler
            && m == Measurement(Attributes(req.proto, SentStatus(handler), req.httpMethod, req.path),
                                Wrap64(TotalWritten(handler)), 1)
  {
    var key := RequestKey(req.proto, req.httpMethod, req.path);
    counter.Add(key, 1);

    var rwr := new CorrectedRwRecorder();
    var i := 0;
    while i < |handler|
      invariant 0 <= i <= |handler|
      invariant RecorderState(rwr.statusCode, rwr.count, rwr.wroteHeader) == CorrectedState(handler[..i])
      invariant rwr.forwarded == handler[..i]
      invariant counter.countMap == old(counter.countMap)[key := CountOf(old(counter.countMap), key) + 1]
    {
      assert handler[..i + 1][..i] == handler[..i];
      assert handler[..i + 1] == handler[..i] + [handler[i]];
      if handler[i].Write? {
        var _ := rwr.Write(handler[i].size, handler[i].written);
      } else {
        rwr.WriteHeader(handler[i].code);
      }
      i := i + 1;
    }
    assert handler[..i] == handler;
    observed := counter.Get();
    forwarded := rwr.forwarded;

    CorrectedRecordsSentResponse(handler);
    m := Measurement(Attributes(req.proto, rwr.statusCode, req.httpMethod, req.path), rwr.count, 1);

    counter.Add(key, -1);
  }

  /**
   * The middleware as written, around the as-written recorder: the same bracket of the
   * in-progress count and the same forwarding, but the measurement carries the status the
   * as-written recorder holds (200 after any write, 0 when nothing is written).
   */
  method ServeWithMetricsAsWritten(counter: RequestCounter, req: Request, handler: seq<RwCall>)
    returns (observed: map<RequestKey, int>, forwarded: seq<RwCall>, m: Measurement)
    modifies counter
    ensures var key := RequestKey(req.proto, req.httpMethod, req.path);
            && counter.countMap == old(counter.countMap)[key := CountOf(old(counter.countMap), key)]
            && CountOf(observed, key) == CountOf(old(counter.countMap), key) + 1
            && forwarded == handler
            && m == Measurement(Attributes(req.proto, RecordAsWritten(handler).statusCode, req.httpMethod, req.path),
                                Wrap64(TotalWritten(handler)), 1)
  {
    var key := RequestKey(req.proto, req.httpMethod, req.path);
    counter.Add(key, 1);

    var rwr := new RwRecorder();
    var i := 0;
    while i < |handler|
      invariant 0 <= i <= |handler|
      invariant Record(rwr.statusCode, rwr.count) == RecordAsWritten(handler[..i])
      invariant rwr.forwarded == handler[..i]
      invariant counter.countMap == old(counter.countMap)[key := CountOf(old(counter.countMap), key) + 1]
    {
      assert handler[..i + 1][..i] == handler[..i];
      assert handler[..i + 1] == handler[..i] + [handler[i]];
      if handler[i].Write? {
        var _ := rwr.Write(handler[i].size, handler[i].written);
      } else {
        rwr.WriteHeader(handler[i].code);
      }
      i := i + 1;
    }
    assert handler[..i] == handler;
    observed := counter.Get();
    forwarded := rwr.forwarded;

    AsWrittenCountsBytes(handler);
    m := Measurement(Attributes(req.proto, rwr.statusCode, req.httpMethod, req.path), rwr.count, 1);

    counter.Add(key, -1);
  }
}
