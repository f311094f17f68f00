/** Reading the request body and writing the response body (io.go). */
module BodyIO {
  import opened Wrappers
  import opened Text
  import opened ErrorKinds
  import opened Errors
  import opened Http

  /** The reader `newMaxBytesReader` hands to `io.ReadAll`: the body stream
      itself, or the stream behind an `http.MaxBytesReader` with a limit. */
  datatype BodyReader = Unlimited | Limited(maxBytes: nat)

  /** `newMaxBytesReader`: a negative limit means no limit. */
  function NewMaxBytesReader(maxBytes: int): (r: BodyReader)
    ensures r.Unlimited? <==> maxBytes < 0
    ensures r.Limited? ==> r.maxBytes == maxBytes
  {
    if maxBytes < 0 then Unlimited else Limited(maxBytes)
  }

  /** The message of the error `http.MaxBytesReader` fails with. */
  const TooLargeMessage: string := "http: request body too large"

  /** What `io.ReadAll` returns, and what is left of the body after it. */
  datatype Drain = Drain(read: ReadResult, rest: Body)

  /** `io.ReadAll` through a reader. The limiter asks the stream for at most
      one byte more than its limit allows, so it refuses a longer body as
      too large after reading exactly `maxBytes + 1` bytes, even if the
      stream would fail later. Without that, the read delivers the whole
      stream, or stops at its fault. */
  function ReadAll(reader: BodyReader, body: Body): (d: Drain)
    ensures d.rest.Transport? <==> body.Transport?
    ensures Pending(d.rest).fault == Pending(body).fault
    ensures |Pending(d.rest).data| <= |Pending(body).data| &&
      Pending(d.rest).data == Pending(body).data[|Pending(body).data| - |Pending(d.rest).data|..]
    ensures reader.Limited? ==> |Pending(body).data| - |Pending(d.rest).data| <= reader.maxBytes + 1
    ensures d.read.ReadOk? ==> d.read.bytes == Pending(body).data && Pending(d.rest).data == []
  {
    var s := Pending(body);
    if reader.Limited? && |s.data| > reader.maxBytes then
      Drain(ReadErr(TooLargeMessage), Advance(body, reader.maxBytes + 1))
    else if s.fault.Some? then
      Drain(ReadErr(s.fault.value), Advance(body, |s.data|))
    else
      Drain(ReadOk(s.data), Advance(body, |s.data|))
  }

  /** A negative limit reads the stream as it is; any other limit lets
      through at most that many bytes and refuses a longer body as too
      large, whatever the stream does after those bytes. */
  lemma LimitDecision(maxBytes: int, body: Body)
    ensures var s := Pending(body);
      var d := ReadAll(NewMaxBytesReader(maxBytes), body);
      (maxBytes < 0 || |s.data| <= maxBytes) ==>
        (d.read.ReadOk? <==> s.fault.None?) && (d.read.ReadErr? ==> d.read.message == s.fault.value)
    ensures var s := Pending(body);
      var d := ReadAll(NewMaxBytesReader(maxBytes), body);
      maxBytes >= 0 && |s.data| > maxBytes ==>
        d.read == ReadErr(TooLargeMessage) && Pending(d.rest) == Stream(s.data[maxBytes + 1..], s.fault)
    ensures ReadAll(NewMaxBytesReader(maxBytes), body).read.ReadOk? ==>
      maxBytes < 0 || |Pending(body).data| <= maxBytes
  {
  }

  /** How `readBody` classifies a read error: by comparing its message. */
  function ClassifyReadError(message: string): (k: ErrorKind)
    ensures k == EtooLargeRequestBody <==> message == TooLargeMessage
    ensures k == EtooLargeRequestBody || k == EreadRequestBody
  {
    if message == TooLargeMessage then EtooLargeRequestBody else EreadRequestBody
  }

  /** What `readBody` returns and the body it leaves on the request. */
  datatype ReadBodyOutcome<T> = ReadBodyOutcome(result: Result<T, Error>, body: Body)

  /** `readBody` as a value: read through the limiter; on a read error stop
      with the classified error, leaving the stream where the read left it;
      otherwise put the bytes back as the body and unmarshal them. */
  function ReadBodyModel<T>(body: Body, maxBodyBytes: int, unmarshal: seq<Byte> -> Result<T, Cause>): ReadBodyOutcome<T> {
    var d := ReadAll(NewMaxBytesReader(maxBodyBytes), body);
    match d.read
    case ReadErr(msg) =>
      ReadBodyOutcome(Err(Error(Cause(msg), ClassifyReadError(msg))), d.rest)
    case ReadOk(b) =>
      ReadBodyOutcome(
        match unmarshal(b)
        case Ok(t) => Ok(t)
        case Err(c) => Err(Error(c, EunmarshalRequestBody)),
        Replay(b))
  }

  /** `readBody[T](w, r, maxBodyBytes)`. The request's body field holds the
      stream's state, so reading it advances the field. */
  method ReadBody<T>(r: Request, maxBodyBytes: int, unmarshal: seq<Byte> -> Result<T, Cause>)
    returns (result: Result<T, Error>)
    modifies r`body
    ensures ReadBodyOutcome(result, r.body) == ReadBodyModel(old(r.body), maxBodyBytes, unmarshal)
  {
    var d := ReadAll(NewMaxBytesReader(maxBodyBytes), r.body);
    r.body := d.rest;
    if d.read.ReadErr? {
      if d.read.message == TooLargeMessage {
        result := Err(Error(Cause(d.read.message), EtooLargeRequestBody));
      } else {
        result := Err(Error(Cause(d.read.message), EreadRequestBody));
      }
      return;
    }
    r.body := Replay(d.read.bytes);
    match unmarshal(d.read.bytes)
    case Ok(t) => result := Ok(t);
    case Err(c) => result := Err(Error(c, EunmarshalRequestBody));
  }

  /** A read error ends readBody with the error's message as the cause,
      classified as too large exactly when the message is TooLargeMessage;
      the body is not replaced by a buffer but left where the read stopped,
      and unmarshal is not consulted. */
  lemma ReadErrorClassified<T>(body: Body, maxBodyBytes: int, unmarshal: seq<Byte> -> Result<T, Cause>,
                               other: seq<Byte> -> Result<T, Cause>)
    requires ReadAll(NewMaxBytesReader(maxBodyBytes), body).read.ReadErr?
    ensures var d := ReadAll(NewMaxBytesReader(maxBodyBytes), body);
      var msg := d.read.message;
      var out := ReadBodyModel(body, maxBodyBytes, unmarshal);
      out.body == d.rest && (out.body.Transport? <==> body.Transport?) &&
      out.result.Err? && out.result.error.err == Cause(msg) &&
      (out.result.error.kind == EtooLargeRequestBody <==> msg == TooLargeMessage) &&
      (out.result.error.kind == EreadRequestBody <==> msg != TooLargeMessage)
    ensures ReadBodyModel(body, maxBodyBytes, unmarshal).result.error ==
      ReadBodyModel(body, maxBodyBytes, other).result.error
  {
  }

  /** After a successful read the body is a buffer of exactly the bytes the
      stream delivered, whether or not they unmarshal; unmarshal failure is
      reported with its own cause. */
  lemma ReadSuccessRebuffers<T>(body: Body, maxBodyBytes: int, unmarshal: seq<Byte> -> Result<T, Cause>)
    requires ReadAll(NewMaxBytesReader(maxBodyBytes), body).read.ReadOk?
    ensures var b := Pending(body).data;
      var out := ReadBodyModel(body, maxBodyBytes, unmarshal);
      out.body == Replay(b) &&
      (unmarshal(b).Ok? ==> out.result == Ok(unmarshal(b).value)) &&
      (unmarshal(b).Err? ==> out.result == Err(Error(unmarshal(b).error, EunmarshalRequestBody)))
  {
  }

  /** A body longer than a non-negative limit is too large, never an
      unmarshal failure, even when the stream fails after the limit; the
      stream is left just past the byte that exceeded the limit. */
  lemma OversizedBodyIsTooLarge<T>(body: Body, maxBodyBytes: int, unmarshal: seq<Byte> -> Result<T, Cause>)
    requires maxBodyBytes >= 0 && |Pending(body).data| > maxBodyBytes
    ensures ReadBodyModel(body, maxBodyBytes, unmarshal) ==
      ReadBodyOutcome(Err(Error(Cause(TooLargeMessage), EtooLargeRequestBody)), Advance(body, maxBodyBytes + 1))
  {
  }

  /** The buffer a successful readBody leaves behind reads back the same
      way: a second readBody with the same limit gives the same result and
      the same body. */
  lemma ReadBodyReplayable<T>(body: Body, maxBodyBytes: int, unmarshal: seq<Byte> -> Result<T, Cause>)
    requires ReadAll(NewMaxBytesReader(maxBodyBytes), body).read.ReadOk?
    ensures var out := ReadBodyModel(body, maxBodyBytes, unmarshal);
      ReadBodyModel(out.body, maxBodyBytes, unmarshal) == out
  {
  }

  /** A failed readBody does not rewind the stream. After a stream fault a
      second readBody fails the same way. After a too-large refusal it reads
      only what follows the first `maxBodyBytes + 1` bytes, so a rest within
      the limit is then accepted and buffered. */
  lemma FailedReadDoesNotRewind<T>(body: Body, maxBodyBytes: int, unmarshal: seq<Byte> -> Result<T, Cause>)
    requires ReadAll(NewMaxBytesReader(maxBodyBytes), body).read.ReadErr?
    ensures var s := Pending(body);
      var out := ReadBodyModel(body, maxBodyBytes, unmarshal);
      (maxBodyBytes < 0 || |s.data| <= maxBodyBytes) ==>
        ReadBodyModel(out.body, maxBodyBytes, unmarshal).result == out.result
    ensures var s := Pending(body);
      var out := ReadBodyModel(body, maxBodyBytes, unmarshal);
      0 <= maxBodyBytes && maxBodyBytes < |s.data| <= 2 * maxBodyBytes + 1 && s.fault.None? ==>
        ReadBodyModel(out.body, maxBodyBytes, unmarshal).body == Replay(s.data[maxBodyBytes + 1..])
  {
  }

  /** The media type of section 11 of RFC 8259. */
  const JsonMediaType: string := "application/json"

  const CharsetPrefix: string := JsonMediaType + "; charset="

  /** `newResponseContentType`: the JSON media type, with a charset
      parameter when a charset is given. */
  function NewResponseContentType(charset: string): (ct: string)
    ensures JsonMediaType <= ct && Contains(ct, JsonMediaType)
    ensures ct == JsonMediaType <==> charset == ""
    ensures CharsetParameter(ct) == charset
  {
    var ct := if charset != "" then CharsetPrefix + charset else JsonMediaType;
    PrefixIsContained(JsonMediaType, ct);
    ct
  }

  /** The charset parameter of a content type built as above ("" if none). */
  function CharsetParameter(ct: string): string {
    if CharsetPrefix <= ct then ct[|CharsetPrefix|..] else ""
  }

  /** What `writeBody` returns and the calls it makes on the writer. */
  datatype WriteBodyOutcome = WriteBodyOutcome(error: Option<Error>, calls: seq<WriterCall>)

  /** `writeBody` as a value. `writeFault` is the writer's behaviour on Write. */
  function WriteBodyModel<U>(u: U, statusCode: int, charset: string,
                             marshal: U -> Result<seq<Byte>, Cause>, writeFault: Option<string>): WriteBodyOutcome {
    match marshal(u)
    case Err(c) => WriteBodyOutcome(Some(Error(c, EmarshalResponse)), [])
    case Ok(b) =>
      WriteBodyOutcome(
        if writeFault.Some? then Some(Error(Cause(writeFault.value), EwriteResponseBody)) else None,
        [AddHeader("Content-Type", NewResponseContentType(charset)), WriteHeader(statusCode), Write(b)])
  }

  /** `writeBody[T](w, t, statusCode, charset)`. */
  method WriteBody<U>(w: ResponseWriter, u: U, statusCode: int, charset: string,
                      marshal: U -> Result<seq<Byte>, Cause>) returns (err: Option<Error>)
    modifies w`calls
    ensures var out := WriteBodyModel(u, statusCode, charset, marshal, w.writeFault);
      err == out.error && w.calls == old(w.calls) + out.calls
  {
    var b := marshal(u);
    if b.Err? {
      return Some(Error(b.error, EmarshalResponse));
    }
    w.AddHeader("Content-Type", NewResponseContentType(charset));
    w.WriteHeader(statusCode);
    var writeErr := w.Write(b.value);
    if writeErr.Some? {
      return Some(Error(Cause(writeErr.value), EwriteResponseBody));
    }
    return None;
  }

  /** A value that does not marshal is reported as such, and nothing at all
      is done to the writer. */
  lemma MarshalFailureWritesNothing<U>(u: U, statusCode: int, charset: string,
                                       marshal: U -> Result<seq<Byte>, Cause>, writeFault: Option<string>)
    requires marshal(u).Err?
    ensures WriteBodyModel(u, statusCode, charset, marshal, writeFault) ==
      WriteBodyOutcome(Some(Error(marshal(u).error, EmarshalResponse)), [])
  {
  }

  /** On marshal success: one Content-Type header, then the status, then the
      bytes, in that order; a failed write is reported as a write failure
      after the status is already committed, otherwise there is no error. */
  lemma WriteOrder<U>(u: U, statusCode: int, charset: string,
                      marshal: U -> Result<seq<Byte>, Cause>, writeFault: Option<string>)
    requires marshal(u).Ok?
    ensures var out := WriteBodyModel(u, statusCode, charset, marshal, writeFault);
      |out.calls| == 3 &&
      out.calls[0] == AddHeader("Content-Type", NewResponseContentType(charset)) &&
      out.calls[1] == WriteHeader(statusCode) &&
      out.calls[2] == Write(marshal(u).value) &&
      (out.error.None? <==> writeFault.None?) &&
      (out.error.Some? ==> out.error.value == Error(Cause(writeFault.value), EwriteResponseBody))
  {
  }
}
