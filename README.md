# jsonhandler, modelled in Dafny

A model of the Go package `jsonhandler`, which turns a typed function
`Handler[T, U]` (request value in, response value or error out) into an HTTP
handler. For each request the adapter

1. checks that the Content-Type header contains `application/json`,
2. reads the body (through a size limiter unless the limit is negative),
   puts the bytes back on the request as a replayable body, and unmarshals
   them into a `T`,
3. calls the user handler,
4. marshals the `U`, adds a Content-Type header (`application/json`, with
   `; charset=<c>` when a charset is configured), writes the status code and
   then the bytes.

The first failing stage stops the request; its failure becomes one `*Error`
(cause + kind) that is passed once to the optional `onError` callback.
Settings (success status code, body limit, response charset) live in a
three-slot config object with per-slot defaults and "modified" flags, built
by a builder and changed by `WithXXX` options applied in order.

Modules, one per source file, plus three helpers:

- `ErrorKinds` (errorkind_generated.go, error.go constants): the kinds 0..7
  and the generated `String` table.
- `Errors` (error.go): `Error`, its message and its two-member JSON record;
  Go's `newError(err, kind)` is the datatype constructor `Errors.Error`.
- `Configuration` (config_generated.go): `ConfigItem`, `Config`,
  `ConfigBuilder` as classes, and the settings as a value (`Settings`) with
  `ApplyAll` specifying `Config.Apply`.
- `BodyIO` (io.go): `readBody` and `writeBody` as methods proved against the
  value-level `ReadBodyModel` and `WriteBodyModel`.
- `Handlers` (handler.go): `hasJSONHeader`, the pipeline as a state machine
  (`Step`, `Run`) over abstract stage outcomes, the `HandlerFunc` class whose
  `Call` and `Prepare` are proved against `Run`, and `Func`.
- `Wrappers` (Option, Result), `Text` (`strings.Contains`,
  `strconv.FormatInt` with its inverse), `Http` (the request, and a response
  writer that records the calls made on it).

Foreign behaviour enters as parameters: JSON decoding
(`seq<Byte> -> Result<T, Cause>`), JSON encoding (`U -> Result<seq<Byte>,
Cause>`), the user handler (`T -> Result<U, Cause>`), what the body stream delivers
(its bytes, then its end or the error it fails with), and the error, if any,
that a write of the response body fails with. The request's body is consumed
as it is read: the model keeps the stream's position in the body field.

Two behaviours differ from what one might expect of such an adapter; the
model follows the code: on a read error (including "body too large") `readBody` returns before
it re-buffers the body, so the request keeps its original stream, already
read to its fault or to one byte past the limit (io.go:22-31); and `EtooLargeRequestBody` (7) is missing from the
generated name table, so its name is `"ErrorKind(7)"`.

## Model

| member | source | states |
|---|---|---|
| `ErrorKinds.KindIndexWellFormed` | errorkind_generated.go:20-22 | the index table starts at 0, rises strictly and ends at 107, the length of the name string, so every slice is in bounds and non-empty |
| `ErrorKinds.TableSliceSpells` | errorkind_generated.go:20-22 | slice k of the name string spells the identifier constant k is declared with (k = 0..6) |
| `ErrorKinds.String` | errorkind_generated.go:24-29 | total on every integer; never empty and never contains a space; for 0..6 it is the constant's identifier |
| `ErrorKinds.TooLargeRendersNumbered` | errorkind_generated.go:25-27 | `EtooLargeRequestBody` renders as "ErrorKind(7)", not as its identifier, because the table covers only 0..6 |
| `ErrorKinds.IdentifiersDistinct` | errorkind_generated.go:20-22 | the seven table names, and the identifier of `EtooLargeRequestBody`, are pairwise distinct |
| `ErrorKinds.StringRoundTrip` | errorkind_generated.go:24-29 | every integer's name parses back to that integer (table names and "ErrorKind(n)" alike) |
| `ErrorKinds.StringInjective` | errorkind_generated.go:24-29 | distinct kinds have distinct names, over all integers |
| `Text.Contains` | handler.go:56-58 | the substring scan is true exactly when the pattern occurs at some index |
| `Text.FormatIntRoundTrip` | errorkind_generated.go:26 | the decimal rendering used for out-of-table kinds reads back as the same integer, negatives included |
| `Errors.IsHandlerError` | error.go:30-31 | over all integers, a kind is a handler error exactly when its name is "EhandlerError" |
| `Errors.Message` | error.go:39 | the message is the kind's name, then a space, then the cause's message: it splits at its first space into exactly those two |
| `Errors.HandlerErrorIsTheOnlyOne` | error.go:30-31 | among the declared kinds, `IsHandlerError` holds exactly for `EhandlerError` |
| `Errors.MessageRoundTrip` | error.go:39 | the message "<kind name> <cause message>" determines the error: kind and cause read back unchanged |
| `Errors.MarshalRecord` | error.go:41-46 | the JSON record has exactly the two members "err" and "kind" |
| `Errors.RecordRoundTrip` | error.go:41-46 | the record's "err" is the cause's message and its "kind" the kind's name: the error reads back from it unchanged |
| `Configuration.ConfigItem.constructor` | config_generated.go:27-31 | a new item is unmodified, and both `Default()` and `Get()` return the construction value |
| `Configuration.ConfigItem.Get` | config_generated.go:15-20 | the stored value once the item has been set, the default before |
| `Configuration.ConfigItem.Default` | config_generated.go:21-23 | the default, which is what `Get` returns while the item is unset; `Set` never changes it (see `ConfigItem.Set`) |
| `Configuration.ConfigItem.IsModified` | config_generated.go:24-26 | the modified flag; while it is false `Get` returns the default |
| `Configuration.ConfigItem.Set` | config_generated.go:11-14 | afterwards `IsModified()` holds, `Get()` is the new value (so the last Set wins) and `Default()` is unchanged |
| `Configuration.ApplyAllSnoc` | config_generated.go:65-69 | applying a list and then one more option is applying the extended list |
| `Configuration.LastOptionWins` | config_generated.go:65-69 | after a list of options each slot holds the last value given for it, marked modified, or is untouched when no option names it; defaults never change |
| `Configuration.OptionChangesOneSlot` | config_generated.go:73-87 | each `WithXXX` option sets its own slot and leaves the other two, value and flag, as they were |
| `Configuration.Config.constructor` | config_generated.go:56-62 | the `Config` literal holds three fresh, distinct, unmodified items with the given defaults |
| `Configuration.Config.Invoke` | config_generated.go:73-87 | calling an option closure changes the config exactly as `ApplyOption` says |
| `Configuration.Config.Apply` | config_generated.go:65-69 | the new settings are the old ones with the options applied in list order (an empty list changes nothing) |
| `Configuration.ConfigBuilder.constructor` | config_generated.go:64 | a new builder holds the zero values 0, 0 and "" |
| `Configuration.ConfigBuilder.SuccessStatusCode` | config_generated.go:44-47 | sets only its own field and returns the same builder |
| `Configuration.ConfigBuilder.MaxRequestBodyBytes` | config_generated.go:48-51 | sets only its own field and returns the same builder |
| `Configuration.ConfigBuilder.ResponseContentCharset` | config_generated.go:52-55 | sets only its own field and returns the same builder |
| `Configuration.ConfigBuilder.Build` | config_generated.go:56-62 | a fresh config whose three items are unmodified and default to the builder's fields |
| `BodyIO.NewMaxBytesReader` | io.go:11-16 | no limiter exactly when the limit is negative; otherwise a limiter with that limit |
| `BodyIO.ReadAll` | io.go:11-22 | what is left of the stream after the read is a suffix of it with the same fault; the limiter consumes at most one byte past its limit; a successful read delivers and drains the whole stream |
| `BodyIO.LimitDecision` | io.go:11-16 | a negative limit, or a stream within the limit, reads the stream's own end or fault; a non-negative limit refuses a longer body as too large, even one whose stream fails later, and leaves the stream just past byte limit+1 |
| `BodyIO.ClassifyReadError` | io.go:24-28 | a read error is "too large" exactly when its message is "http: request body too large", and "read failed" otherwise |
| `BodyIO.ReadBody` | io.go:21-36 | the result and the request's new body are those of `ReadBodyModel` for the old body |
| `BodyIO.ReadErrorClassified` | io.go:22-30 | on a read error the cause is the read error, the kind follows its message, the body is not replaced by a buffer but left where the read stopped, and unmarshal plays no part |
| `BodyIO.ReadSuccessRebuffers` | io.go:31-35 | after a successful read the body is a buffer of exactly the bytes read, decoded or not; decode failure is `EunmarshalRequestBody` with the decoder's error, success is the decoded value |
| `BodyIO.OversizedBodyIsTooLarge` | io.go:22-29 | a body longer than a non-negative limit gives `EtooLargeRequestBody`, never an unmarshal failure, even when the stream fails later; the stream is left after byte limit+1 |
| `BodyIO.ReadBodyReplayable` | io.go:31 | after a successful read, the buffer readBody leaves behind reads again, with the same limit, to the same result and body |
| `BodyIO.FailedReadDoesNotRewind` | io.go:22-30 | after a failed read the stream is not restored: a fault repeats on a second read, and after a too-large refusal a second read sees only the bytes past limit+1, accepting them when they fit |
| `BodyIO.NewResponseContentType` | io.go:38-44 | the value starts with (so contains) `application/json`; it is exactly that media type iff the charset is empty; the charset reads back from it |
| `BodyIO.WriteBody` | io.go:48-59 | the error and the calls appended to the writer are those of `WriteBodyModel` |
| `BodyIO.MarshalFailureWritesNothing` | io.go:49-52 | a value that does not marshal gives `EmarshalResponse` with the encoder's error and no call on the writer |
| `BodyIO.WriteOrder` | io.go:53-58 | on marshal success: one Content-Type header, then the status, then the bytes; a failed write gives `EwriteResponseBody` after the status is committed; no error otherwise |
| `Handlers.HasJSONHeader` | handler.go:56-58 | true exactly when "application/json" occurs somewhere in the Content-Type value |
| `Handlers.MissingContentTypeFails` | handler.go:56-58 | an absent Content-Type reads as "" and fails the check |
| `Handlers.SubstringPasses` | handler.go:56-58 | any value containing the media type passes, whatever surrounds it (no media-type parse) |
| `Handlers.ResponseContentTypePasses` | io.go:38-44 | the Content-Type the adapter writes passes its own request check, for every charset |
| `Handlers.StepAdvances` | handler.go:60-75 | each step advances one stage along check, read, handle, write or goes to the error stage; terminal stages stay |
| `Handlers.RunTerminates` | handler.go:60-75 | every request ends written or with exactly one reported error |
| `Handlers.NotJSONShortCircuits` | handler.go:62-64 | a failed check reports `EnotJSONRequest` with cause "not json"; the body is untouched, nothing is written, decoder and handler play no part |
| `Handlers.ReadFailureShortCircuits` | handler.go:65-68 | readBody's error is the request's error unchanged; the handler plays no part and nothing is written |
| `Handlers.HandlerFailureWrapped` | handler.go:69-72 | a handler error is reported as `EhandlerError` with the handler's error as cause; nothing is written and the encoder plays no part |
| `Handlers.SuccessIsWriteBody` | handler.go:73 | when the handler succeeds the outcome and the writes are writeBody's, with the configured status code and charset |
| `Handlers.NoUnknownKind` | handler.go:60-75 | a reported error always has one of the kinds 1..7, never `Eunknown`; only a write failure leaves calls on the writer |
| `Handlers.HandlerErrorIffHandlerFailed` | handler.go:69-72 | the request's error is a handler error exactly when the check and read succeeded and the handler failed |
| `Handlers.SuccessEndToEnd` | handler.go:60-75 | a good request yields Content-Type, then the configured status, then the encoded response, with the body kept as a buffer |
| `Handlers.TooLargeEndToEnd` | handler.go:65-68 | a body over a non-negative limit ends with `EtooLargeRequestBody` before the handler and with nothing written; the request keeps its stream, read to one byte past the limit |
| `Handlers.ErrorHandler.Handle` | handler.go:15 | one call of the callback records exactly the error it was given, after those it received before |
| `Handlers.HandlerFunc.constructor` | handler.go:60-61 | the handler function keeps the user handler and the config it was built with |
| `Handlers.HandlerFunc.Call` | handler.go:60-75 | the returned error, the request's body and the writer's calls are those of `Run` on the request, writer fault and current settings |
| `Handlers.HandlerFunc.Prepare` | handler.go:24-30 | `onError` receives the request's error exactly once when there is one and it is non-nil, and is not called otherwise |
| `Handlers.Func` | handler.go:42-50 | with no options the handler uses status 200, limit -1 (none) and charset ""; each option given overrides its slot, the last one winning |

## Left out

- JSON encoding and decoding (`encoding/json`) are parameters; the model says nothing about what they accept or produce.
- `http.MaxBytesReader` is modelled by what it reads and reports: at most limit+1 bytes, then its error for a longer body, or else the stream's own end or fault. Its effect on the writer (asking the server to close the connection) and its `*MaxBytesError` type are not modelled; the error is classified by its message as in the source.
- A stream is its bytes followed by its end or one fault that then repeats; a stream that fails part-way through a single read, or recovers after a fault, is not modelled. The body's state is a value in the request's field, so another holder of the same stream object (aliasing) is not modelled.
- Go strings are byte sequences; the model uses Dafny strings of characters. Every string the package compares or searches for is ASCII, so no result changes.
- `http.ResponseWriter.WriteHeader` panics on a status code outside 100..999; the recording writer accepts any integer, so a misconfigured status code is not modelled.
- The rest of net/http: header-key canonicalisation (keys are taken as canonical), the byte count returned by `Write`, and the request context, which is only passed through to the handler.
- The user handler is a pure function of the request value; handlers with side effects (the example's counter with its mutex) are not modelled.
- The error callback is modelled by the errors it receives; what it writes (the example's status mapping) is caller policy.
- Only the three `WithXXX` options are modelled; user-written `Option` closures are not.
- Causes are their message strings; `fmt`'s `%v` of other values and a nil `Err` in `MarshalJSON` are not modelled. `MarshalJSON` is modelled up to the map it encodes.
- Integer widths: `ErrorKind` (int), the status code (int) and the body limit (int64) are unbounded integers; no value in the package approaches their bounds.
- `_ErrorKind_name` is written as the concatenation of the seven generated names; it has the same 107 characters.
- `ConfigItem`'s value field starts as some zero value of its type, which is never observed.
- The compile-time guard `func _()` and the `go:generate` directives have no runtime behaviour.
- BodyIO.ReadBody: returns a Result, so the zero or partly decoded `T` that the source returns beside an error is not modelled; no caller reads it.
