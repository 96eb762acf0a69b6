# agent_api: a Dafny model of the streaming and minute-writer core

`agent_api` is a small FastAPI backend with two jobs. It relays a hosted chat
model's streamed reply as an event stream. It also turns an uploaded meeting
recording into minutes: the audio is transcribed, then the transcript is
summarised. A Streamlit playground reads the API's own OpenAPI description
and acts as a test client. This project models the deterministic parts of
that code as pure Dafny functions and proves properties about them:

- **Event-stream framing and parsing** (`Chatbot`, `Sse`). `stream_chatbot`
  turns each upstream fragment into a `data: <x>\n\n` frame, and turns a
  terminal exception into one last frame. The playground's
  `parse_sse_line` and its every-other-line loop read those frames back.
  The two are tied together by a round-trip proof. When no fragment and no
  error text contains a line break, the reader's message is the fragments
  concatenated, followed by the error text. The proviso matters: a fragment
  that is just `"\n"` makes its frame three lines long. That shifts the
  later frames onto the wrong parity, and the reader loses them, until
  another frame with an odd number of line breaks shifts it back
  (`Chatbot.LineBreakFragmentMisread`).
- **Route descriptors** (`Routes`). `create_route_config` derives a route
  descriptor from an OpenAPI operation.
- **File-type decisions** (`FileTypes`). This covers the endpoint's
  case-insensitive upload allow-list and the playground's case-sensitive
  choice of content type. It also covers the `pathlib` suffix given to the
  temporary copy of an upload.
- **The minute-writer pipeline** (`MinuteWriter`). The state record goes
  through `transcribe` and then `summarize`. The speech-to-text client and
  the chat model are parameters: functions that either return text or
  raise. Each step records which model calls it made.
- **Schemas** (`Schemas`). `AgentResponse` and `MinuteWriterOutput` are
  modelled as validation of a loosely typed record.
- **The HTTP handlers** (`Endpoints`). `process_meeting` covers the
  extension check, the temporary-file steps, the success envelope and the
  mapping from exceptions to status codes. `chat` covers the thread
  configuration and the streaming response.

Shared helpers: `Outcomes` (an option type, a result type, and Python
exceptions as values), `Seqs` (map, filter and flatten) and `Text` (the
Python string methods the code uses).

Several facts follow from the code and are proved here:

- Every failure inside the pipeline reaches `process_meeting` as a
  `RuntimeError`. It therefore becomes a 500, never a 400
  (`Endpoints.PipelineFailureIsServerError`, `Endpoints.BadRequestSources`).
- The temporary file is removed only when the request succeeds. Every
  error path after its creation leaves it in place (`Endpoints.ProcessMeeting`).
- An upload named `TALK.MP3` is accepted by the endpoint. The playground
  would still send it as `application/octet-stream`
  (`FileTypes.CaseSensitivityGap`).
- An upload named `.mp3` is accepted, but its temporary copy gets no suffix
  (`FileTypes.TempSuffixOfAcceptedUpload`).

## Model

| member | source | states |
|---|---|---|
| `Sse.ParseSseLine` | src/core/playground.py:227-250 | An empty line yields `"  \n\n"`. An undecodable line yields `""`. Any other line yields the text after `data: ` if the line starts with exactly `data: `, and `""` otherwise. |
| `Sse.DataSplit` | src/core/playground.py:243-246 | Splitting at the first `": "` gives the field name `data` exactly when the line starts with `data: `. The value is then everything after that first separator, later `": "` included. |
| `Sse.ProcessStreamingResponse` | src/core/playground.py:262-282 | The message is the in-order concatenation of the non-empty parses of the even-indexed lines. It is appended to the history as the assistant's message. When the message is empty, a warning is shown and the history is unchanged. When reading the response raises, an error is shown, no warning is shown, and the partial message is discarded. |
| `Sse.AccumulatedStep` | src/core/playground.py:268-273 | One more line extends the message by its parse when its index is even. An odd-indexed line leaves the message unchanged. |
| `Text.SplitOnce` | src/core/playground.py:243 | `split(sep, 1)` returns the text before the first occurrence of `sep` and the text after it; no occurrence lies earlier. When `sep` does not occur, there is only one part. |
| `Text.SplitLinesUnbroken` | src/core/playground.py:268 | A text without line breaks is a single line, and the empty text has no lines. |
| `Text.SplitLinesStep` | src/core/playground.py:268 | A line ends at `\n`, at `\r\n`, or at a `\r` that is not followed by `\n`. The break is dropped, and splitting continues after it. |
| `Text.SplitTerminated` | src/core/playground.py:268 | Splitting newline-terminated, break-free lines gives those lines back. |
| `Chatbot.Frame` | src/agent/chatbot.py:88 | A frame starts with `data: ` and ends with a blank line. It carries the payload between them. |
| `Chatbot.StreamChatbot` | src/agent/chatbot.py:81-90 | There is one frame per upstream fragment, in upstream order, with nothing merged or dropped. When the upstream raises, exactly one extra frame with the error text follows. A query with no `message` key yields the single frame `data: 'message'`. |
| `Chatbot.FrameRoundTrip` | src/agent/chatbot.py:88 | A break-free payload's frame splits into a `data:` line and an empty line. The first of these parses back to the payload. |
| `Chatbot.StreamRoundTrip` | src/agent/chatbot.py:84-88 | Reading back the body of a sequence of frames yields the payloads joined, provided no payload contains a line break. |
| `Chatbot.ChatRoundTrip` | src/agent/chatbot.py:81-90 | End to end, when no fragment and no error text contains a line break, the playground's message is the upstream fragments concatenated, followed by the error text, if any. |
| `Chatbot.LineBreakFragmentMisread` | src/agent/chatbot.py:88 | A `"\n"` fragment followed by any break-free fragment `x` is read back as two `EmptyLineText` parses, not as `"\n" + x`. |
| `Routes.CreateRouteConfig` | src/core/playground.py:86-131 | The path is copied and the method is upper-cased. The description defaults to `No description`. The input type is `file` for a multipart body, `text` for any other body and `none` for no body. `required_params` holds exactly the names of the required parameters. `accepted_files` is the binary property names in property order. It is `["*"]` when there are none, and `[]` without `properties`. |
| `Routes.UpperSpec` | src/core/playground.py:102 | Upper-casing keeps the length, agrees with the input up to case, and leaves no lower-case letter. |
| `Routes.RequiredParamsOrder` | src/core/playground.py:110-113 | `required_params` follows the order of `parameters`: the names for a concatenation of lists are the names for each list, in turn. |
| `Routes.RequiredParamsSingle` | src/core/playground.py:112 | A single parameter contributes its name exactly when `required` is true. |
| `Routes.AcceptedFilesOrder` | src/core/playground.py:122-126 | Binary property names follow the order of the schema's properties. |
| `Routes.AcceptedFilesSingle` | src/core/playground.py:122-126 | A single property contributes its name exactly when it is a string with `binary` format. |
| `Routes.BinaryNamesSpec` | src/core/playground.py:122-127 | The binary names are exactly the names of the string/binary properties. They are empty exactly when there is no such property. |
| `FileTypes.UploadAccepted` | src/api/endpoints.py:45 | An upload is accepted exactly when the last four characters of its name, lower-cased, are `.mp3`, `.wav` or `.m4a`. |
| `FileTypes.ContentType` | src/core/playground.py:350-354 | The content type is `audio/mpeg` exactly when the name ends, case-sensitively, in one of the three extensions. Otherwise it is `application/octet-stream`. |
| `FileTypes.AudioContentTypeIsAccepted` | src/core/playground.py:350-354 | Every name the playground labels as audio is accepted by the endpoint. |
| `FileTypes.CaseSensitivityGap` | src/core/playground.py:350-354 | Among accepted names, the playground falls back to `application/octet-stream` exactly when the extension has an upper-case letter. |
| `FileTypes.UpperCaseExtensionExample` | src/api/endpoints.py:45 | `TALK.MP3` is accepted, yet labelled `application/octet-stream`. |
| `FileTypes.PathName` | src/api/endpoints.py:54 | `PurePosixPath(p).name` never contains a slash. |
| `FileTypes.PathNameSingle` | src/api/endpoints.py:54 | A path without a slash is its own name, unless it is `.`. |
| `FileTypes.PathNameLast` | src/api/endpoints.py:54 | The name of `a/b` is `b` when `b` is a component that is neither empty nor `.`. |
| `FileTypes.PathNameTrailingSlash` | src/api/endpoints.py:54 | A trailing slash does not change the name. |
| `FileTypes.PathNameTrailingDot` | src/api/endpoints.py:54 | A trailing `/.` component does not change the name. |
| `FileTypes.PathSuffix` | src/api/endpoints.py:54 | The suffix is non-empty exactly when the last dot of the path's last component is neither its first nor its last character. It then runs from that dot to the end of the component. |
| `FileTypes.TempSuffixOfAcceptedUpload` | src/api/endpoints.py:53-55 | The temporary file of an accepted upload gets the upload's extension, in its original case. It gets no suffix when nothing precedes the dot in the last component (`.mp3`, `dir/.wav`). |
| `Schemas.FieldErrors` | src/api/schemas.py:27-45 | The reported fields are exactly the declared fields that the record violates. There are none exactly when every field conforms. |
| `Schemas.ValidateAgentResponse` | src/api/schemas.py:27-29 | Validation succeeds exactly when `success` is a boolean, `message` is a string, and `data` is missing, null or an object. Missing and null `data` both give `None`. |
| `Schemas.AgentResponseRoundTrip` | src/api/schemas.py:27-29 | Dumping a response and validating it again gives the same response. |
| `Schemas.AgentResponseDataDefault` | src/api/schemas.py:29 | Leaving `data` out gives `data = None`. |
| `Schemas.ValidateMinuteWriterOutput` | src/api/schemas.py:43-45 | Validation succeeds exactly when `audio_path`, `transcript` and `summary` are all present strings. On failure, the error names exactly the offending fields. |
| `Schemas.MinuteWriterOutputRoundTrip` | src/api/schemas.py:43-45 | Dumping an output and validating it again gives the same output. |
| `Schemas.MissingOutputFieldRejected` | src/api/schemas.py:43-45 | A record missing any one of the three fields fails, and the error names that field. |
| `MinuteWriter.Transcribe` | src/agent/minute_writer.py:67-71 | `transcript` becomes the transcriber's result and no other field changes. Every failure is a `ValueError` with the fixed prefix. A missing `audio_path` fails without calling the transcriber. |
| `MinuteWriter.Summarize` | src/agent/minute_writer.py:87-116 | A missing or empty transcript fails with `ValueError` before any model call. On success, `summary` becomes the model's content and no other field changes. Success also requires `audio_path`. Every failure is a `ValueError` with the fixed prefix. |
| `MinuteWriter.SummarizeRejectsMissingAudioPath` | src/agent/minute_writer.py:112-116 | With no `audio_path`, the model is called first. Output validation then rejects the state, reporting `audio_path`, as a `ValueError`. |
| `MinuteWriter.CreateMinuteWriterGraph` | src/agent/minute_writer.py:132-146 | The entry is `transcribe` and the finish is `summarize`. There is one edge, and a run visits exactly `transcribe` then `summarize`. |
| `MinuteWriter.InvokeIsTranscribeThenSummarize` | src/agent/minute_writer.py:135-141 | Invoking the graph is `transcribe` followed by `summarize` on its result. A failed `transcribe` stops the run. |
| `MinuteWriter.ProcessMeetingRecording` | src/agent/minute_writer.py:163-169 | The run starts from `{"audio_path": path}` and returns only the summary. It succeeds exactly when the transcriber returns a non-empty text and the model answers it. Every failure is a `RuntimeError`. The summariser is called only after the transcriber and only with its non-empty result. |
| `MinuteWriter.PipelineFailureTexts` | src/agent/minute_writer.py:168-169 | The exception text of each failure has the `RuntimeError` prefix over the `ValueError` prefix over the cause. |
| `Endpoints.ExceptionResponse` | src/api/endpoints.py:73-78 | `ValueError` and `FileNotFoundError` become 400 with the exception text. Anything else becomes 500 with the prefix `An error occurred: `. |
| `Endpoints.SuccessEnvelope` | src/api/endpoints.py:67-71 | The envelope has `success` true, the fixed message and `data = {"summary": summary}`. It passes `AgentResponse` validation. |
| `Endpoints.ProcessMeeting` | src/api/endpoints.py:45-78 | A rejected name gives 400 with the fixed detail and no effects at all. The reply is the success envelope exactly when every step succeeds. The temporary file is removed exactly on that path. The file gets the upload's `pathlib` suffix. The effects come in the order: create, copy, run the pipeline, remove. A failing create, copy or unlink step answers with that exception's response. After a create failure there are no effects; after a copy failure only the creation; after an unlink failure everything but the removal. |
| `Endpoints.PipelineFailureIsServerError` | src/api/endpoints.py:62-78 | A failing pipeline gives 500, with the detail starting `An error occurred: Failed to process meeting recording: `. The temporary file stays in place. |
| `Endpoints.BadRequestSources` | src/api/endpoints.py:73-74 | A 400 comes only from the extension check or from a file-system step raising `ValueError` or `FileNotFoundError`, never from the pipeline. |
| `Endpoints.Chat` | src/api/endpoints.py:82-107 | `thread_id`, defaulting to `"1"`, is placed at `config["configurable"]["thread_id"]`. The reply streams the chatbot's frames as `text/event-stream`. Only a failure to build the agent gives a 500. |

## Left out

- `FileTypes.UploadAccepted`: lower-cases ASCII letters only. Python's `str.lower` follows full Unicode, but no non-ASCII character lower-cases to a letter of the three extensions, so the decision is the same.
- `Routes.CreateRouteConfig`: upper-cases ASCII letters only. OpenAPI method names are ASCII, whereas `str.upper` would also map characters such as `ß`.
- `Sse.ProcessStreamingResponse`: the live rendering of the partial message in the placeholder, and the log line written when reading fails, are user interface and are not modelled. Only the history, the warning and the error are.
- UTF-8 decoding is not modelled. A line either decodes to a string or is flagged as undecodable (`Sse.RawLine`).
- `requests.Response.iter_lines` is modelled as `bytes.splitlines` over the whole body. Line breaks that straddle a network chunk boundary are not modelled.
- The LangGraph engine, asynchronous streaming and the event loop are replaced by plain sequential composition. The chat graph's upstream is a finite list of fragments plus an optional exception text (`Chatbot.Upstream`). The minute-writer graph is run by following its edges from the entry to the finish node (`MinuteWriter.Walk`), which covers linear graphs only.
- The hosted chat and speech-to-text clients, and the settings they are built from, are function parameters. Conversation history kept by the hosted service under a thread id is not modelled.
- `MinuteWriter.__init__` failing is not modelled. It reads two keys of a module-level dictionary that always holds them.
- The text of a validation error does not reproduce Pydantic's wording; only the reported field names are modelled (`MinuteWriter.ValidationErrorText`). Pydantic's coercion rules are not modelled either: validation is strict.
- The temporary file's path and contents are not modelled. It appears only as a path given to the request and its effects trace. Failures of file creation, copying and removal are inputs. A failure while closing the file at the end of the `with` block is not modelled.
- A missing upload filename (`None`) is not modelled. It would fail outside the handler's `try`.
- `Path.suffix` is modelled for POSIX paths, as in Python 3.12. Windows separators are not modelled.
- Exceptions outside the `Exception` hierarchy, such as cancellation, are not modelled.
- `load_routes`, the Streamlit rendering, the playground's HTTP requests (`make_api_request`, `prepare_files_dict`, `display_response`), prompt text, `src/core/config.py`, the root handler in `src/main.py` and `gunicorn_conf.py` are user interface, I/O or configuration, and are not part of this model.
