# Streaming inference bridge of the model-comparer backend

This project is a Dafny model of the part of the Flask backend that streams
text generation. The `/api/stream_gpt` handler takes a JSON body
`{text, model}`. It replaces a missing or unknown model with `llama3` and
rejects a missing or empty prompt with status 400. Otherwise it answers with a
`text/event-stream` produced by the generator `generate()`. That generator
posts `{model, prompt, stream: true}` to the Ollama generate endpoint and
reads the newline-delimited JSON body one line at a time:

- an empty line is skipped;
- a line the per-line handler cannot process is logged and skipped;
- a non-empty `response` fragment is appended to `complete_response` and
  re-emitted as a `content` event;
- the first line whose `done` is truthy makes it insert
  `{text_input, gpt_response, model}` into MongoDB, emit `[DONE]` and leave
  the loop.

After the loop it emits `[DONE]` again. An exception outside the per-line
handler becomes a single `error` event instead. Such an exception is a
refused connection, a non-success status or a read error.

The network and the store are abstract inputs:

- an `Upstream` value is either a refusal, or a sequence of classified lines
  followed by a normal end or a read failure;
- a flag says whether the store accepts the insert.

The output is the generator's trace: every event it yields and every insert
it makes, in the order it does them. Its projections are the events the client
receives and the records the store keeps.

Modules:

- `Request` (`request.dfy`) — the request fields as Python sees them, the
  model allow-list fallback and the prompt check shared by `/api/submit` and
  `/api/stream_gpt`.
- `Bridge` (`bridge.dfy`) — the line, event, record and action types, the
  specification functions `StreamTrace` (the ordered trace) and
  `StreamOutcome` (its events and its records, without their order relative
  to each other), and `Generate`, the generator's loop, proved to compute
  the trace.
- `BridgeProperties` (`bridge_properties.dfy`) — what the bridge promises,
  proved about `StreamTrace` and `StreamOutcome`, and the lemma that the
  second is the projection of the first.
- `Handler` (`handler.dfy`) — the endpoint: validation, then the bridge.
- `Wrappers` (`wrappers.dfy`) — `Option` and `Result`.

Points where the code's behaviour may surprise a reader:

- On the done path the code emits `[DONE]` twice: once before `break`
  (`backend/app.py:115`) and once after the loop (`backend/app.py:123`). The
  model emits both. For prompt `hello` with upstream lines `"Hi"` and then
  done, the client therefore gets `content "Hi"`, `[DONE]`, `[DONE]`, not a
  single `[DONE]`.
- The insert into the store happens before the first `[DONE]` is sent
  (`backend/app.py:103-115`). A client that has seen `[DONE]` can therefore
  find the record already stored, unless the insert failed.
- A line that fails to parse never fails the stream. The per-line `try`
  catches it and the loop goes on. Only failures outside that handler
  produce an `error` event.
- Whitespace-only lines are not skipped before parsing. `if line:` only
  skips empty lines, so `json.loads` fails on them and they are logged as
  malformed. The events are the same either way.
- A `done` line's own `response` is dropped, as the code does.
- A prompt that is a truthy non-string JSON value (for example `5`) passes
  validation. It is sent upstream and stored as it is.

## Model

| member | source | states |
|---|---|---|
| `Request.NormaliseModel` | backend/app.py:77-79 | the result is always one of `llama3`, `mistral`, `gemma:2b`; a supported model passes through unchanged; an absent, non-string or unknown one becomes `llama3` |
| `Request.NormaliseModelIdempotent` | backend/app.py:43-45 | normalising an already normalised model changes nothing |
| `Request.ParseRequest` | backend/app.py:75-82 | a request is rejected exactly when its prompt is falsy (absent, null, empty); a rejection has status 400 and the endpoint's message; an accepted request keeps the body's prompt and carries the normalised, allowed model |
| `Request.RoutesAgree` | backend/app.py:41-48 | `/api/submit` and `/api/stream_gpt` accept the same bodies and normalise them the same way |
| `Bridge.Emitted` | backend/app.py:117-120 | every event emitted for the lines before a done line is a `content` event with non-empty text, at most one per line |
| `Bridge.FirstDone` | backend/app.py:101 | finds the first line whose `done` is truthy: that line is done and no earlier line is; if none is found, no line is done |
| `Bridge.Generate` | backend/app.py:87-126 | the generator's loop performs exactly the trace `StreamTrace` specifies (its events and its insert, in order), for every upstream behaviour and store outcome |
| `BridgeProperties.TraceProjectsToOutcome` | backend/app.py:87-126 | the events of the trace are those `StreamOutcome` lists for the client, and its inserts are the records `StreamOutcome` lists for the store |
| `BridgeProperties.AccumulatedIsEmittedText` | backend/app.py:117-120 | `complete_response` always equals the in-order concatenation of the texts of the `content` events emitted so far |
| `BridgeProperties.StoredResponseIsEmittedContent` | backend/app.py:104-110 | a stored record's `gpt_response` is the in-order concatenation of all content the client received; its prompt and model are the request's |
| `BridgeProperties.AtMostOneInsert` | backend/app.py:101-116 | at most one record is inserted per stream, and one is inserted exactly when a truthy `done` line is reached and the store accepts it; a refused request or a stream without `done` stores nothing |
| `BridgeProperties.InsertPrecedesFirstDone` | backend/app.py:101-115 | an insert comes after all the content events and is immediately followed by the first `[DONE]` |
| `BridgeProperties.InsertFailureSwallowed` | backend/app.py:103-115 | a failed insert leaves the events unchanged, so `[DONE]` still follows and no error is emitted; nothing is stored |
| `BridgeProperties.LinesAfterDoneIgnored` | backend/app.py:101-116 | the trace does not depend on the lines after the first done line, on how the body would have ended, or on the `response` carried by the done line |
| `BridgeProperties.InertLineHasNoEffect` | backend/app.py:98-122 | an empty line, an unparsable line or a line with an empty or absent `response` can be removed without changing the trace: it emits nothing, accumulates nothing, and the next line is processed |
| `BridgeProperties.InertShiftsFirstDone` | backend/app.py:97-101 | inserting such a line before or after the first done line keeps which line is the first done line |
| `BridgeProperties.DonePathEndsWithTwoSentinels` | backend/app.py:115-123 | on the done path the events are content events followed by exactly two `[DONE]`, with no error |
| `BridgeProperties.CleanEndOneSentinel` | backend/app.py:97-123 | a body that ends normally without `done` yields content events followed by exactly one `[DONE]`, with no error |
| `BridgeProperties.FailureYieldsOneError` | backend/app.py:95-126 | a refused request or a read failure before `done` yields exactly one error event, last and after all content already emitted, with no `[DONE]` and nothing stored |
| `BridgeProperties.HelloExchange` | backend/app.py:87-123 | for prompt `hello` on `llama3` with lines `"Hi"` then done, the generator yields `content "Hi"`, inserts `{hello, Hi, llama3}`, then yields `[DONE]` twice |
| `Handler.StreamGpt` | backend/app.py:73-127 | a body with a falsy prompt gets a 400 `No prompt provided` with no upstream call and no insert; any other body makes exactly one upstream call `{normalised model, prompt, stream: true}` and streams exactly the trace `StreamTrace` specifies, whose events and inserts are those of `StreamOutcome` |

## Left out

- HTTP and server-sent-event transport (Flask routing, `Response`, the `data: …\n\n` framing): events are values, not text frames.
- JSON decoding and encoding (`line.decode`, `json.loads`, `json.dumps`): each upstream line arrives already classified as empty, malformed or a chunk with its `done` truthiness and string `response`.
- Request bodies that are not JSON objects (Flask's own rejection, or `.get` raising on a list): bodies are modelled as their `text` and `model` fields only.
- The `requests` client (connection, `raise_for_status`, `iter_lines`, the 120-second timeout, closing the connection): it is an abstract `Upstream` value, a refusal or a body that ends normally or with a read failure. The text of an exception is an abstract string.
- Client disconnect mid-stream (`GeneratorExit`) and the lazy start of the generator: the model runs the generator to completion.
- MongoDB: `insert_one` is a success flag and an insert log; a failed insert is taken to store nothing. The `_id` it assigns and the `created_at` timestamp from `datetime.utcnow()` are not modelled.
- Logging and traceback formatting, and the configuration read from the environment (`backend/app.py:11-30`).
- The rest of `submit_text` after its validation (the synchronous upstream call and insert, `backend/app.py:49-71`), `get_texts`, `delete_all_texts`, `delete_text`, `health_check` and the error handlers (`backend/app.py:129-185`): these wrap the store or return constant responses.
- `frontend/app.js`: an Express proxy with no logic of its own.
