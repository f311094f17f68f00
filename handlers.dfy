/** The adapter of handler.go: the Content-Type check, and the pipeline
    check → read → handle → write that stops at the first failure and
    reports it, as one classified error, to an optional callback. */
module Handlers {
  import opened Wrappers
  import opened Text
  import opened ErrorKinds
  import opened Errors
  import opened Http
  import opened BodyIO
  import Configuration

  /** `errNotJSON`. */
  const NotJSON: Cause := Cause("not json")

  /** `hasJSONHeader`: a plain substring test on the Content-Type value, not
      a media-type parse. */
  function HasJSONHeader(h: Header): (b: bool)
    ensures b <==> exists i: nat :: OccursAt(HeaderGet(h, "Content-Type"), JsonMediaType, i)
  {
    Contains(HeaderGet(h, "Content-Type"), JsonMediaType)
  }

  /** A request without a Content-Type value fails the check. */
  lemma MissingContentTypeFails(h: Header)
    requires "Content-Type" !in h || h["Content-Type"] == []
    ensures !HasJSONHeader(h)
  {
  }

  /** Any value that merely contains the media type passes, whatever
      surrounds it. */
  lemma SubstringPasses(h: Header, before: string, after: string)
    requires "Content-Type" in h && h["Content-Type"] != [] && h["Content-Type"][0] == before + JsonMediaType + after
    ensures HasJSONHeader(h)
  {
    var v := h["Content-Type"][0];
    assert v[|before|..|before| + |JsonMediaType|] == JsonMediaType;
    assert OccursAt(v, JsonMediaType, |before|);
  }

  /** The Content-Type the adapter writes would pass its own check. */
  lemma ResponseContentTypePasses(charset: string)
    ensures HasJSONHeader(map["Content-Type" := [NewResponseContentType(charset)]])
  {
  }

  /** Everything the pipeline depends on: the request as it arrives, the
      three settings it reads, and the foreign behaviour (JSON decoding and
      encoding, the user handler, the writer's fault on Write). */
  datatype Env<!T, !U> = Env(
    header: Header,
    body: Body,
    maxBodyBytes: int,
    statusCode: int,
    charset: string,
    unmarshal: seq<Byte> -> Result<T, Cause>,
    handler: T -> Result<U, Cause>,
    marshal: U -> Result<seq<Byte>, Cause>,
    writeFault: Option<string>)

  /** The stages of one request. */
  datatype Stage<T, U> =
    | Start
    | ContentTypeChecked
    | BodyRead(request: T)
    | HandlerInvoked(response: U)
    | ResponseWritten
    | ErrorReported(error: Error)
  {
    predicate Terminal() {
      ResponseWritten? || ErrorReported?
    }

    /** Position on the success path. */
    function Rank(): nat {
      match this
      case Start => 0
      case ContentTypeChecked => 1
      case BodyRead(_) => 2
      case HandlerInvoked(_) => 3
      case ResponseWritten => 4
      case ErrorReported(_) => 4
    }
  }

  /** A stage with the request body as it now stands and the calls made on
      the writer so far. */
  datatype Machine<T, U> = Machine(stage: Stage<T, U>, body: Body, written: seq<WriterCall>)

  /** One transition. Each stage either moves to the next or goes straight
      to ErrorReported; the terminal stages stay put. */
  function Step<T, U>(e: Env<T, U>, m: Machine<T, U>): Machine<T, U> {
    match m.stage
    case Start =>
      if HasJSONHeader(e.header) then m.(stage := ContentTypeChecked)
      else m.(stage := ErrorReported(Error(NotJSON, EnotJSONRequest)))
    case ContentTypeChecked =>
      var out := ReadBodyModel(m.body, e.maxBodyBytes, e.unmarshal);
      Machine(
        match out.result
        case Ok(t) => BodyRead(t)
        case Err(err) => ErrorReported(err),
        out.body, m.written)
    case BodyRead(t) =>
      (match e.handler(t)
       case Ok(u) => m.(stage := HandlerInvoked(u))
       case Err(c) => m.(stage := ErrorReported(Error(c, EhandlerError))))
    case HandlerInvoked(u) =>
      var out := WriteBodyModel(u, e.statusCode, e.charset, e.marshal, e.writeFault);
      Machine(
        match out.error
        case None => ResponseWritten
        case Some(err) => ErrorReported(err),
        m.body, m.written + out.calls)
    case ResponseWritten => m
    case ErrorReported(_) => m
  }

  /** One request from Start: four transitions reach a terminal stage. */
  function Run<T, U>(e: Env<T, U>): Machine<T, U> {
    Step(e, Step(e, Step(e, Step(e, Machine(Start, e.body, [])))))
  }

  /** The error the request ends with, if any. */
  function Outcome<T, U>(m: Machine<T, U>): Option<Error> {
    if m.stage.ErrorReported? then Some(m.stage.error) else None
  }

  /** The stages come in order: a step either advances by one along the
      success path or goes to ErrorReported, and terminal stages stay. */
  lemma StepAdvances<T, U>(e: Env<T, U>, m: Machine<T, U>)
    ensures m.stage.Terminal() ==> Step(e, m) == m
    ensures !m.stage.Terminal() ==>
      Step(e, m).stage.ErrorReported? || Step(e, m).stage.Rank() == m.stage.Rank() + 1
  {
  }

  /** Every request ends written or with one reported error. */
  lemma RunTerminates<T, U>(e: Env<T, U>)
    ensures Run(e).stage.Terminal()
  {
  }

  /** A failed Content-Type check reports EnotJSONRequest with cause "not
      json"; the body is not read, nothing is written, and neither the
      decoder nor the handler is consulted. */
  lemma NotJSONShortCircuits<T, U>(e: Env<T, U>, unmarshal: seq<Byte> -> Result<T, Cause>, handler: T -> Result<U, Cause>)
    requires !HasJSONHeader(e.header)
    ensures Run(e) == Machine(ErrorReported(Error(NotJSON, EnotJSONRequest)), e.body, [])
    ensures Run(e.(unmarshal := unmarshal, handler := handler)) == Run(e)
  {
  }

  /** A readBody error is the request's error, unchanged; the handler is
      not called and nothing is written. */
  lemma ReadFailureShortCircuits<T, U>(e: Env<T, U>, handler: T -> Result<U, Cause>)
    requires HasJSONHeader(e.header)
    requires ReadBodyModel(e.body, e.maxBodyBytes, e.unmarshal).result.Err?
    ensures var out := ReadBodyModel(e.body, e.maxBodyBytes, e.unmarshal);
      Run(e) == Machine(ErrorReported(out.result.error), out.body, [])
    ensures Run(e.(handler := handler)) == Run(e)
  {
  }

  /** A handler error is wrapped as EhandlerError with the handler's error as
      its cause; the response is not written. */
  lemma HandlerFailureWrapped<T, U>(e: Env<T, U>, marshal: U -> Result<seq<Byte>, Cause>)
    requires HasJSONHeader(e.header)
    requires ReadBodyModel(e.body, e.maxBodyBytes, e.unmarshal).result.Ok?
    requires e.handler(ReadBodyModel(e.body, e.maxBodyBytes, e.unmarshal).result.value).Err?
    ensures var out := ReadBodyModel(e.body, e.maxBodyBytes, e.unmarshal);
      Run(e) == Machine(ErrorReported(Error(e.handler(out.result.value).error, EhandlerError)), out.body, [])
    ensures Run(e.(marshal := marshal)) == Run(e)
  {
  }

  /** When the handler succeeds, the request's outcome is exactly writeBody's,
      called with the configured status code and charset. */
  lemma SuccessIsWriteBody<T, U>(e: Env<T, U>)
    requires HasJSONHeader(e.header)
    requires ReadBodyModel(e.body, e.maxBodyBytes, e.unmarshal).result.Ok?
    requires e.handler(ReadBodyModel(e.body, e.maxBodyBytes, e.unmarshal).result.value).Ok?
    ensures var out := ReadBodyModel(e.body, e.maxBodyBytes, e.unmarshal);
      var u := e.handler(out.result.value).value;
      var w := WriteBodyModel(u, e.statusCode, e.charset, e.marshal, e.writeFault);
      Outcome(Run(e)) == w.error && Run(e).written == w.calls && Run(e).body == out.body
  {
  }

  /** No path produces Eunknown: every reported error has one of the seven
      specific kinds, and only a write failure leaves anything written. */
  lemma NoUnknownKind<T, U>(e: Env<T, U>)
    ensures Outcome(Run(e)).Some? ==>
      EnotJSONRequest <= Outcome(Run(e)).value.kind <= EtooLargeRequestBody
    ensures Run(e).written != [] ==>
      Outcome(Run(e)).None? || Outcome(Run(e)).value.kind == EwriteResponseBody
  {
  }

  /** The one distinction the package draws: the request's error is a
      handler error exactly when the check and the read succeeded and the
      handler returned an error. */
  lemma HandlerErrorIffHandlerFailed<T, U>(e: Env<T, U>)
    ensures (Outcome(Run(e)).Some? && IsHandlerError(Outcome(Run(e)).value.kind)) <==>
      (HasJSONHeader(e.header) &&
       ReadBodyModel(e.body, e.maxBodyBytes, e.unmarshal).result.Ok? &&
       e.handler(ReadBodyModel(e.body, e.maxBodyBytes, e.unmarshal).result.value).Err?)
  {
  }

  /** A whole successful request: a JSON Content-Type, a body within the
      limit that decodes, a handler that succeeds and a value that encodes
      give one Content-Type header, the configured status and the encoded
      bytes, with the body kept for later readers. */
  lemma SuccessEndToEnd<T, U>(e: Env<T, U>, b: seq<Byte>)
    requires HasJSONHeader(e.header) && e.body == Transport(Stream(b, None))
    requires e.maxBodyBytes < 0 || |b| <= e.maxBodyBytes
    requires e.unmarshal(b).Ok? && e.handler(e.unmarshal(b).value).Ok?
    requires e.marshal(e.handler(e.unmarshal(b).value).value).Ok? && e.writeFault.None?
    ensures Run(e) == Machine(ResponseWritten, Replay(b),
      [AddHeader("Content-Type", NewResponseContentType(e.charset)), WriteHeader(e.statusCode),
       Write(e.marshal(e.handler(e.unmarshal(b).value).value).value)])
  {
  }

  /** A body longer than a non-negative limit ends the request with
      EtooLargeRequestBody before the handler runs, and nothing is written;
      the request keeps its stream, read up to one byte past the limit. */
  lemma TooLargeEndToEnd<T, U>(e: Env<T, U>, b: seq<Byte>)
    requires HasJSONHeader(e.header) && e.body == Transport(Stream(b, None))
    requires 0 <= e.maxBodyBytes < |b|
    ensures Run(e) == Machine(ErrorReported(Error(Cause(TooLargeMessage), EtooLargeRequestBody)),
      Transport(Stream(b[e.maxBodyBytes + 1..], None)), [])
  {
  }

  /** `ErrorHandler`: the callback, seen through the errors it receives.
      What it then does with the writer is the caller's policy. */
  class ErrorHandler {
    var received: seq<Error>

    constructor ()
      ensures received == []
    {
      received := [];
    }

    method Handle(w: ResponseWriter, r: Request, err: Error)
      modifies this
      ensures received == old(received) + [err]
    {
      received := received + [err];
    }
  }

  /** `HandlerFunc` as built by `newHandlerFunc(handler, config)`, with the
      JSON decoder for T and encoder for U it uses. */
  class HandlerFunc<T, U> {
    const handler: T -> Result<U, Cause>
    const config: Configuration.Config
    const unmarshal: seq<Byte> -> Result<T, Cause>
    const marshal: U -> Result<seq<Byte>, Cause>

    /** `newHandlerFunc(handler, config)`. */
    constructor (handler: T -> Result<U, Cause>, config: Configuration.Config,
                 unmarshal: seq<Byte> -> Result<T, Cause>, marshal: U -> Result<seq<Byte>, Cause>)
      ensures this.handler == handler && this.config == config
      ensures this.unmarshal == unmarshal && this.marshal == marshal
    {
      this.handler := handler;
      this.config := config;
      this.unmarshal := unmarshal;
      this.marshal := marshal;
    }

    /** The pipeline's inputs for one request: the request, the writer's
        fault and the settings as they now stand. */
    function EnvFor(w: ResponseWriter, r: Request): Env<T, U>
      reads this, config, config.successStatusCode, config.maxRequestBodyBytes, config.responseContentCharset, r
    {
      Env(r.header, r.body, config.maxRequestBodyBytes.Get(), config.successStatusCode.Get(),
          config.responseContentCharset.Get(), unmarshal, handler, marshal, w.writeFault)
    }

    /** The function newHandlerFunc returns, applied to (w, r). */
    method Call(w: ResponseWriter, r: Request) returns (err: Option<Error>)
      modifies w`calls, r`body
      ensures var m := Run(old(EnvFor(w, r)));
        err == Outcome(m) && r.body == m.body && w.calls == old(w.calls) + m.written
    {
      ghost var e := EnvFor(w, r);
      ghost var m1 := Step(e, Machine(Start, e.body, []));
      if !HasJSONHeader(r.header) {
        return Some(Error(NotJSON, EnotJSONRequest));
      }
      var t := ReadBody(r, config.maxRequestBodyBytes.Get(), unmarshal);
      ghost var m2 := Step(e, m1);
      if t.Err? {
        return Some(t.error);
      }
      assert m2.stage == BodyRead(t.value);
      var u := handler(t.value);
      if u.Err? {
        return Some(Error(u.error, EhandlerError));
      }
      ghost var m3 := Step(e, m2);
      assert m3.stage == HandlerInvoked(u.value) && m3.written == [];
      err := WriteBody(w, u.value, config.successStatusCode.Get(), config.responseContentCharset.Get(), marshal);
    }

    /** `Prepare(onError)` applied to (w, r): run the pipeline, then hand its
        error to onError once, if there is an error and a callback. */
    method Prepare(onError: ErrorHandler?, w: ResponseWriter, r: Request)
      modifies w`calls, r`body, onError
      ensures var m := Run(old(EnvFor(w, r)));
        r.body == m.body && w.calls == old(w.calls) + m.written &&
        (onError != null ==>
          onError.received == old(onError.received) + (if Outcome(m).Some? then [Outcome(m).value] else []))
    {
      var err := Call(w, r);
      if err.Some? && onError != null {
        onError.Handle(w, r, err.value);
      }
    }
  }

  /** `Func(handler, opt...)`: status 200, no body limit and no charset,
      then the options in order. */
  method Func<T, U>(handler: T -> Result<U, Cause>, unmarshal: seq<Byte> -> Result<T, Cause>,
                    marshal: U -> Result<seq<Byte>, Cause>, opts: seq<Configuration.Option>)
    returns (f: HandlerFunc<T, U>)
    ensures fresh(f) && fresh(f.config)
    ensures f.handler == handler && f.unmarshal == unmarshal && f.marshal == marshal
    ensures f.config.Valid()
    ensures f.config.successStatusCode.Get() == Configuration.LastSet(opts, Configuration.StatusCodeOf).GetOr(200)
    ensures f.config.maxRequestBodyBytes.Get() == Configuration.LastSet(opts, Configuration.MaxBytesOf).GetOr(-1)
    ensures f.config.responseContentCharset.Get() == Configuration.LastSet(opts, Configuration.CharsetOf).GetOr("")
  {
    var builder := new Configuration.ConfigBuilder();
    builder := builder.SuccessStatusCode(200);
    builder := builder.MaxRequestBodyBytes(-1);
    builder := builder.ResponseContentCharset("");
    var config := builder.Build();
    ghost var s0 := config.Snapshot();
    config.Apply(opts);
    Configuration.LastOptionWins(s0, opts);
    f := new HandlerFunc(handler, config, unmarshal, marshal);
  }
}
