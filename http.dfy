/** The parts of net/http the core touches: the request's header and body,
    and a response writer that records what is done to it. The transport's
    behaviour enters as values: what the body stream delivers, and whether
    a write of the response body fails. */
module Http {
  import opened Wrappers

  type Byte = x: int | 0 <= x < 256

  /** The outcome of reading a stream to its end: the bytes, or the
      message of the error the read stopped with. */
  datatype ReadResult = ReadOk(bytes: seq<Byte>) | ReadErr(message: string)

  /** What a body stream still has to deliver: its bytes, then either its
      end (`fault == None`) or the error it then fails with. A stream that
      has failed keeps failing with the same error. */
  datatype Stream = Stream(data: seq<Byte>, fault: Option<string>)

  /** A request body: the stream from the transport, or a buffer the
      handler put in its place. Either is consumed as it is read. */
  datatype Body = Transport(stream: Stream) | Replay(buffered: seq<Byte>)

  /** What is left to read of a body. */
  function Pending(b: Body): Stream {
    match b
    case Transport(s) => s
    case Replay(buffered) => Stream(buffered, None)
  }

  /** The body once its next `k` bytes have been read: the same kind of
      body, positioned after them. */
  function Advance(b: Body, k: nat): (b': Body)
    requires k <= |Pending(b).data|
    ensures b'.Transport? <==> b.Transport?
    ensures Pending(b') == Stream(Pending(b).data[k..], Pending(b).fault)
  {
    match b
    case Transport(s) => Transport(Stream(s.data[k..], s.fault))
    case Replay(buffered) => Replay(buffered[k..])
  }

  /** `http.Header`; keys are taken to be in canonical form. */
  type Header = map<string, seq<string>>

  /** `Header.Get`: the first value for the key, or "" when there is none. */
  function HeaderGet(h: Header, key: string): string {
    if key in h && |h[key]| > 0 then h[key][0] else ""
  }

  class Request {
    var header: Header
    var body: Body

    constructor (header: Header, body: Body)
      ensures this.header == header && this.body == body
    {
      this.header := header;
      this.body := body;
    }
  }

  /** A call made on a ResponseWriter. */
  datatype WriterCall =
    | AddHeader(key: string, value: string)
    | WriteHeader(statusCode: int)
    | Write(bytes: seq<Byte>)

  /** `http.ResponseWriter`, recording the calls made on it in order.
      `writeFault` is the error a body write fails with, if it fails. */
  class ResponseWriter {
    var calls: seq<WriterCall>
    const writeFault: Option<string>

    constructor (writeFault: Option<string>)
      ensures calls == [] && this.writeFault == writeFault
    {
      calls := [];
      this.writeFault := writeFault;
    }

    /** `w.Header().Add(key, value)`. */
    method AddHeader(key: string, value: string)
      modifies this`calls
      ensures calls == old(calls) + [WriterCall.AddHeader(key, value)]
    {
      calls := calls + [WriterCall.AddHeader(key, value)];
    }

    /** `w.WriteHeader(statusCode)`. */
    method WriteHeader(statusCode: int)
      modifies this`calls
      ensures calls == old(calls) + [WriterCall.WriteHeader(statusCode)]
    {
      calls := calls + [WriterCall.WriteHeader(statusCode)];
    }

    /** `w.Write(bytes)`: the call is recorded, and fails with `writeFault`. */
    method Write(bytes: seq<Byte>) returns (err: Option<string>)
      modifies this`calls
      ensures calls == old(calls) + [WriterCall.Write(bytes)] && err == writeFault
    {
      calls := calls + [WriterCall.Write(bytes)];
      err := writeFault;
    }
  }
}
