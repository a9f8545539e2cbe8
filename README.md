# hello-axum: the inspection middleware, the page handler and the error table

This project is a Dafny model of the logic in the hello-axum scaffold:

- **`AppError`** (`src/common/error.rs`) has six variants. Each one displays a fixed prefix followed by its payload. Its `IntoResponse` answers with one of 400, 401, 403, 500 or 503 and a JSON envelope that repeats the code and carries the message.
- **`list_things`** (`src/main.rs`) is the `/page` handler. It generates `page_size` items `{id: i + 1, name: "Item {i + 1}"}` and ignores `page`.
- **`request_response_inspecter`** is the middleware (`src/main.rs`), together with its helpers `request_inspect_print` and `response_print`.
  - It drains the request body; a failure answers `(400, "failed to read request body: {err}")`.
  - If the body is UTF-8 and logging is enabled, it logs the body at info.
  - It logs the request line, then runs the next handler on the same head over a body of the drained bytes.
  - When logging is enabled and the DEBUG level is on, it also drains the response body, logs it at debug when it is UTF-8, and rebuilds the response. A failure there answers `(400, "failed to read response body: {err}")`.

How the model is laid out:

- A body (`Body.BodyValue`) is the sequence of data chunks a stream yields plus an optional terminal error.
- A body being read is a `Body.BodyStream` object whose read position advances frame by frame. A ghost counter records every poll, so "not read" means "never polled". `Collect` is the loop that `BodyExt::collect` runs.
- The next handler is a function from request value to response value.
- The log is a `Inspect.Trace` object whose list of events grows. Each run of the next handler is recorded there as a `HandlerRun` event, so the proofs can say how often, and on what, the handler ran.
- `tracing::enabled!(Level::DEBUG)` is the parameter `debugEnabled`.
- `Inspect.Inspection` is the functional specification of the middleware: its result and everything it emits, in order. The method `Inspect.RequestResponseInspecter` is proved to produce exactly that. The lemmas state what `Inspection` guarantees.

Modules, one per file:

- `Wrappers`: `Option`, and `Result` with `:-` for Rust's `?`.
- `Bytes`: bytes and chunk concatenation.
- `Utf8`: what `std::str::from_utf8` accepts, following Table 3-7 of the Unicode Standard.
- `Numerals`: `Display` for integers.
- `Http`: status codes and their classes, from section 15 of RFC 9110.
- `Errors`: the contents of `error.rs`.
- `Paging`: `list_things`.
- `Body`: bodies and streams.
- `Inspect`: the middleware.

The comment above `list_things` (`src/main.rs:29`) speaks of a `per_page` query parameter. The struct field, and so the parameter that is actually read, is `page_size` (`src/main.rs:21`). The model follows the code.

## Model

| member | source | states |
|---|---|---|
| Errors.Message | src/common/error.rs:8-26 | the displayed message ends with the whole payload, after a non-empty prefix |
| Errors.StatusOf | src/common/error.rs:30-37 | for each code, exactly which variants produce it: 400 ⇔ InvalidInput, 401 ⇔ AuthenticationError, 403 ⇔ AuthorizationError, 500 ⇔ Generic or DatabaseError, 503 ⇔ NetworkError |
| Errors.StatusIsError | src/common/error.rs:30-37 | no variant maps to 2xx; the client-error variants are exactly InvalidInput, AuthenticationError and AuthorizationError, and the server-error variants are exactly the other three |
| Errors.StatusIgnoresPayload | src/common/error.rs:30-37 | replacing the payload changes neither the status nor the prefix of the message |
| Errors.IntoResponse | src/common/error.rs:28-43 | the envelope's code equals the response status, which is `StatusOf` of the error and not 2xx; the envelope's message is the displayed message |
| Errors.ParseMessage | src/common/error.rs:8-26 | any error it recovers from a string displays as exactly that string |
| Errors.MessageRoundTrip | src/common/error.rs:8-26 | parsing the displayed message gives back the same variant and payload, so no prefix shadows another |
| Errors.MessageInjective | src/common/error.rs:8-26 | distinct errors display distinct messages |
| Paging.ListThings | src/main.rs:36-44 | exactly `page_size` items; the one at index i has id i + 1 and name "Item " followed by the decimal digits of i + 1 |
| Paging.PageIsIgnored | src/main.rs:31-44 | two queries with the same `page_size` list the same items whatever their `page` |
| Paging.IdsRunFromOne | src/main.rs:37-41 | ids strictly increase along the list, and every id from 1 to `page_size` is present |
| Paging.NamesDistinct | src/main.rs:40 | no two items share a name |
| Paging.PageTwoOfFive | src/main.rs:36-44 | `page=2, page_size=5` lists ids 1 to 5 named "Item 1" to "Item 5" |
| Numerals.Decimal | src/main.rs:40 | the printed number is a non-empty string of digits, with no leading zero unless the number is 0 |
| Numerals.ParseDecimalOfDecimal | src/main.rs:40 | reading the printed digits back gives the number |
| Numerals.DecimalInjective | src/main.rs:40 | distinct numbers print differently |
| Bytes.ConcatAppend | src/main.rs:146-147 | collecting a stream in two parts gives the same buffer as collecting it at once |
| Bytes.ConcatLength | src/main.rs:146-147 | the buffer's length is the sum of the chunk lengths |
| Bytes.ConcatAt | src/main.rs:146-147 | each byte of each chunk sits in the buffer at its chunk's offset plus its index, so nothing is reordered or inserted |
| Body.Collected | src/main.rs:146-147 | defines what `collect().await` then `to_bytes()` gives: Ok exactly when the stream ends cleanly, the stream's error otherwise, and a buffer whose length is the sum of the chunk lengths |
| Body.FromBytes | src/main.rs:125 | a body built over a buffer collects to exactly that buffer, in at most one chunk |
| Body.BodyStream.PollFrame | src/main.rs:146 | counts one more poll; yields the next data chunk and advances; after the last chunk it yields the stream's error, or the end, and stays put |
| Body.BodyStream.Collect | src/main.rs:146-154 | the stream is polled at least once and read to its end; the result is the concatenation of every chunk still to come, or the error that stopped the stream |
| Utf8.InTable | src/main.rs:156 | defines the nine rows of Table 3-7 of the Unicode Standard, each with its own byte ranges |
| Utf8.LeadingScalarLengthFollowsTable | src/main.rs:156 | the prefix the decoder measures at the head of a sequence is a row of Table 3-7, and when it finds none, no prefix of the sequence is one |
| Utf8.ValidUtf8 | src/main.rs:156 | defines `from_utf8(..).is_ok()`: the whole buffer splits, from its first byte on, into well-formed sequences |
| Utf8.AsciiIsText | src/main.rs:156 | a buffer of ASCII bytes is always accepted as text |
| Utf8.LeadingScalarLengthOfPrefix | src/main.rs:156 | the scalar at the head is decided by its own bytes, whatever follows |
| Utf8.AppendValid | src/main.rs:156 | two UTF-8 texts joined are UTF-8 (the step behind `Inspect.TextChunksAreLogged`) |
| Utf8.ConcatOfValidChunks | src/main.rs:156 | a body whose every chunk is UTF-8 collects to UTF-8 (used by `Inspect.TextChunksAreLogged`) |
| Utf8.ChunkBoundaryMaySplitScalar | src/main.rs:156 | two chunks that are not UTF-8 on their own can collect to UTF-8 text (U+00E9 split in two), which is why the check is made on the whole buffer |
| Inspect.Drain | src/main.rs:137-185 | the drain succeeds exactly when the stream ends cleanly, and then yields the concatenation of its chunks. A failure gives `ReadFailure` with the stream's error and logs nothing. At most one record is emitted: the drained bytes, unchanged, at the given level and direction, only when logging and only for UTF-8 |
| Inspect.ResponseStage | src/main.rs:127-131 | defines the step after the handler ran. It fails exactly when the gate is open and the response body fails, and then with 400. On success it keeps the head and the body's bytes. With the gate closed it emits nothing |
| Inspect.Inspection | src/main.rs:112-134 | defines the whole middleware: its result and every record and handler run, in order. It fails exactly when the request body fails, or when the gate is open and the response body fails, and every failure is a 400 |
| Inspect.ReadFailureText | src/main.rs:148-152 | a failed drain answers 400 with "failed to read request body: {err}" or "failed to read response body: {err}" |
| Inspect.RunsAppend | src/main.rs:126 | the handler runs of a joined trace are those of each part, in order |
| Inspect.DrainRunsNothing | src/main.rs:137-185 | draining a body never runs the handler |
| Inspect.RunsOfDispatch | src/main.rs:119-126 | a request line, then a single handler run between events that run nothing, is exactly one run |
| Inspect.RequestDrainFailure | src/main.rs:117-152 | a request body that fails answers `(400, "failed to read request body: {err}")`, logs nothing and does not run the handler |
| Inspect.HandlerRunsOnceOnDrainedBytes | src/main.rs:117-126 | the handler runs exactly once when the request drains, and never when the drain fails. It runs on the original head, headers included, over a body that collects to the very bytes the request held |
| Inspect.RequestLineOnlyAfterDrain | src/main.rs:118-124 | the request line is logged if and only if the request body drained |
| Inspect.GateClosedPassesThrough | src/main.rs:126-133 | with the gate closed, the result is the handler's response exactly as it was returned |
| Inspect.GateOpenDrainsResponse | src/main.rs:127-130 | with the gate open, the result is Ok if and only if the response body ends cleanly. It then keeps the response head and collects to the same bytes; otherwise it answers 400 "failed to read response body: {err}" |
| Inspect.RecordsAreGated | src/main.rs:156-184 | every body record is UTF-8 and appears only with logging on. An info record is the request body exactly as drained. A debug record appears only with DEBUG on and after a clean request drain, and holds exactly the bytes of the handler's response body |
| Inspect.DrainLogsText | src/main.rs:156-182 | a UTF-8 body that drains with logging on is logged exactly once, unchanged |
| Inspect.TextChunksAreLogged | src/main.rs:156-159 | a body whose every chunk is UTF-8 is logged once, whole |
| Inspect.SplitScalarIsLogged | src/main.rs:156-159 | a body of two chunks that split U+00E9 is logged whole although neither chunk is text: the test is made on the collected buffer |
| Inspect.RecordsInOrder | src/main.rs:117-131 | with logging and DEBUG on and both bodies UTF-8, the emitted sequence is exactly: request body record, request line, handler run, response body record |
| Inspect.LoggingKeepsResponse | src/main.rs:126-133 | whatever the logging settings, two successful runs return the same response head and body bytes |
| Inspect.RequestInspectPrint | src/main.rs:137-163 | polls the body and reads it to its end; its result and the records it appends are those of `Drain` at info, gated by `log_enabled` |
| Inspect.ResponsePrint | src/main.rs:165-185 | polls the body and reads it to its end; its result and the records it appends are those of `Drain` at debug, always logged |
| Inspect.RunNext | src/main.rs:125-126 | runs the handler on what the request holds; the response has a fresh body, never polled, carrying what the handler produced, and one handler run is recorded |
| Inspect.InspectResponse | src/main.rs:127-131 | with the gate open, drains and rebuilds the response over a fresh body that was never polled. With it closed, it returns the same response object and its body is not polled even once. Result and records are those of `ResponseStage` |
| Inspect.RequestResponseInspecter | src/main.rs:112-134 | polls the request body and reads it to its end. The result, and the records appended in order, are exactly those of `Inspection` on what the request held. A successful response has a body never polled, whose head and contents are those `Inspection` gives |

## Left out

- `main` (`src/main.rs:48-93`) is not modelled. It covers environment loading, the tracing-subscriber setup, the TCP bind and the server loop, which are process bootstrap and I/O.
- The CORS and compression layers and their order (`src/main.rs:69-72`, `src/main.rs:79-88`) are not modelled: they are tower-http library behaviour.
- `make_request_response_inspecter` (`src/main.rs:95-110`) is not modelled; it only boxes and pins the future. `log_enabled` is a plain parameter of `RequestResponseInspecter`.
- Async suspension and the internals of `Next::run` are left out. The next handler is an arbitrary function from request value to response value.
- Query-string parsing (serde `Query`) and JSON serialisation (`Json`) are left out as library calls. `list_things` is modelled from the parsed `Pagination` to the list of items.
- The `info!` record that `list_things` writes with `page` and `page_size` is not modelled.
- `src/common/dto.rs` is not part of this model. For `ApiResponse::failure`, only the code and the message put into it are modelled; the `success` flag and any other envelope field are not.
- `Errors.Envelope` holds the code as an integer, as `status.as_u16()` gives it. The JSON encoding of the envelope and of the response is not modelled.
- The text of the tracing records (`{:?}` escaping of the body, formatting of method, uri and version) is not modelled. A record holds the logged bytes, or the method, uri and version.
- Subscriber filtering is left out: the model assumes info records are kept. The DEBUG level is modelled only as the gate parameter `debugEnabled`.
- HTTP trailers are left out. A body yields data chunks and then an end or an error. Header extensions are not modelled; headers are a list of name/value pairs carried unchanged.
- `Inspect.Drain`: a stream error is modelled as its displayed text (`{err}`), not as a typed error value.
- `Inspect.RunNext`: the handler cannot itself fail or write to the log in this model. A handler error has already become a response by the time `Next::run` returns.
