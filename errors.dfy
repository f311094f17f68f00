/** The classified error of the package (error.go): a cause and a kind,
    its message and its two-field JSON record. */
module Errors {
  import opened Wrappers
  import opened ErrorKinds

  /** A Go `error` value, seen through its `Error()` message. */
  datatype Cause = Cause(message: string)

  /** `Error{Err, Kind}`; `newError(err, kind)` is this constructor. */
  datatype Error = Error(err: Cause, kind: ErrorKind)

  /** `ErrorKind.IsHandlerError`: over all integers, exactly the kind
      whose name is "EhandlerError". */
  function IsHandlerError(k: ErrorKind): (b: bool)
    ensures b <==> String(k) == "EhandlerError"
  {
    StringRoundTrip(k);
    StringRoundTrip(EhandlerError);
    k == EhandlerError
  }

  /** Of the eight declared kinds, only EhandlerError is a handler error. */
  lemma HandlerErrorIsTheOnlyOne(k: ErrorKind)
    requires Eunknown <= k <= EtooLargeRequestBody
    ensures IsHandlerError(k) <==> Identifier(k) == "EhandlerError"
  {
  }

  /** `(*Error).Error()`: the kind's name, one space, the cause's message.
      The first space of the message ends the kind's name. */
  function Message(e: Error): (m: string)
    ensures SplitAtSpace(m) == Some((String(e.kind), e.err.message))
  {
    SplitAtSpaceOf(String(e.kind), e.err.message);
    String(e.kind) + " " + e.err.message
  }

  /** Splits a string at its first space. */
  function SplitAtSpace(s: string): Option<(string, string)> {
    if s == [] then None
    else if s[0] == ' ' then Some(([], s[1..]))
    else
      match SplitAtSpace(s[1..])
      case Some((head, tail)) => Some(([s[0]] + head, tail))
      case None => None
  }

  lemma {:induction false} SplitAtSpaceOf(a: string, b: string)
    requires ' ' !in a
    ensures SplitAtSpace(a + " " + b) == Some((a, b))
  {
    if a != [] {
      assert (a + " " + b)[1..] == a[1..] + " " + b;
      SplitAtSpaceOf(a[1..], b);
      assert [a[0]] + a[1..] == a;
    } else {
      assert a + " " + b == [' '] + b;
    }
  }

  /** Reads an error back from its message: the kind's name runs up to the
      first space, the cause's message is the rest. */
  function ParseMessage(s: string): Option<Error> {
    match SplitAtSpace(s)
    case Some((name, rest)) =>
      (match ParseKind(name)
       case Some(k) => Some(Error(Cause(rest), k))
       case None => None)
    case None => None
  }

  /** The message determines the error: no kind name contains a space, so
      the kind and the cause can both be read back. */
  lemma MessageRoundTrip(e: Error)
    ensures ParseMessage(Message(e)) == Some(e)
  {
    StringRoundTrip(e.kind);
  }

  /** `(*Error).MarshalJSON`, before JSON encoding: an object with the two
      members "err" (the cause's message) and "kind" (the kind's name). */
  function MarshalRecord(e: Error): (m: map<string, string>)
    ensures m.Keys == {"err", "kind"}
  {
    map["err" := e.err.message, "kind" := String(e.kind)]
  }

  /** Reads an error back from its JSON record. */
  function UnmarshalRecord(m: map<string, string>): Option<Error> {
    if m.Keys == {"err", "kind"} then
      match ParseKind(m["kind"])
      case Some(k) => Some(Error(Cause(m["err"]), k))
      case None => None
    else None
  }

  /** The record loses nothing: the kind and the cause read back unchanged. */
  lemma RecordRoundTrip(e: Error)
    ensures UnmarshalRecord(MarshalRecord(e)) == Some(e)
  {
    StringRoundTrip(e.kind);
  }
}
