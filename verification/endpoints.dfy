/** The HTTP handlers: `process_meeting` (upload check, temporary copy,
    pipeline, success envelope and exception-to-status mapping) and `chat`
    (thread configuration and the event-stream response). File-system steps
    are parameters that succeed or raise; the temporary file itself is
    tracked only through the effects a request has on it. */
module Endpoints {
  import opened Outcomes
  import opened Text
  import Schemas
  import FileTypes
  import MinuteWriter
  import Chatbot

  const BadRequest := 400
  const InternalServerError := 500

  const UnsupportedFormat := "Unsupported file format. Please upload MP3, WAV, or M4A files."
  const SuccessMessage := "Meeting minutes generated successfully"
  const ErrorPrefix := "An error occurred: "

  /** A handler's reply: the validated JSON envelope (status 200) or an
      `HTTPException` with its status and `detail`. */
  datatype Response = JsonBody(body: Schemas.AgentResponse) | HttpError(status: int, detail: string)

  /** What one file-system step does. */
  datatype FileOp = Succeeds | Fails(exc: Exc)

  /** The file-system steps of one upload: the temporary file's path, its
      creation, copying the upload into it, and removing it. */
  datatype TempFile = TempFile(path: string, create: FileOp, copy: FileOp, unlink: FileOp)

  /** Effects on the outside world, in the order they happen. */
  datatype Effect =
    | TempCreated(path: string, suffix: string)
    | UploadCopied(path: string)
    | PipelineRan(path: string)
    | TempRemoved(path: string)

  datatype Handled = Handled(response: Response, effects: seq<Effect>)

  /** The `except` clauses of `process_meeting`: `ValueError` and
      `FileNotFoundError` become 400 with the exception text, anything else
      500 with a fixed prefix. */
  function ExceptionResponse(e: Exc): (r: Response)
    ensures r.HttpError? && (r.status == 400 || r.status == 500)
    ensures r.status == 400 <==> e.kind == ValueError || e.kind == FileNotFoundError
    ensures r.status == 400 ==> r.detail == e.text
    ensures r.status == 500 ==> r.detail == "An error occurred: " + e.text
  {
    if IsValueOrFileNotFound(e.kind) then HttpError(BadRequest, e.text)
    else HttpError(InternalServerError, ErrorPrefix + e.text)
  }

  /** The success envelope `AgentResponse(success=True, ...)`. */
  function SuccessEnvelope(summary: string): (body: Schemas.AgentResponse)
    ensures Schemas.ValidateAgentResponse(Schemas.DumpAgentResponse(body)) == Ok(body)
    ensures body.success && body.message == "Meeting minutes generated successfully"
    ensures body.data == Some(map["summary" := Schemas.Str(summary)])
  {
    Schemas.AgentResponseRoundTrip(Schemas.AgentResponse(true, SuccessMessage, Some(map["summary" := Schemas.Str(summary)])));
    Schemas.AgentResponse(true, SuccessMessage, Some(map["summary" := Schemas.Str(summary)]))
  }

  /** `process_meeting(audio_file)` for an upload named `filename`. */
  function ProcessMeeting(filename: string, temp: TempFile,
                          transcriber: MinuteWriter.Transcriber,
                          summarizer: MinuteWriter.Summarizer): (h: Handled)
    ensures !FileTypes.UploadAccepted(filename) ==>
      h == Handled(HttpError(400, UnsupportedFormat), [])
    ensures h.response.HttpError? ==> h.response.status == 400 || h.response.status == 500
    ensures h.response.JsonBody? <==>
      && FileTypes.UploadAccepted(filename)
      && temp.create.Succeeds? && temp.copy.Succeeds?
      && MinuteWriter.ProcessMeetingRecording(temp.path, transcriber, summarizer).outcome.Returned?
      && temp.unlink.Succeeds?
    ensures h.response.JsonBody? ==>
      h.response.body == SuccessEnvelope(
        MinuteWriter.ProcessMeetingRecording(temp.path, transcriber, summarizer).outcome.value)
    ensures TempRemoved(temp.path) in h.effects <==> h.response.JsonBody?
    ensures h.effects != [] ==>
      h.effects[0] == TempCreated(temp.path, FileTypes.PathSuffix(filename))
    ensures PipelineRan(temp.path) in h.effects ==>
      && FileTypes.UploadAccepted(filename)
      && |h.effects| >= 3
      && h.effects[..3] == [TempCreated(temp.path, FileTypes.PathSuffix(filename)),
                            UploadCopied(temp.path), PipelineRan(temp.path)]
    ensures h.response.JsonBody? ==>
      h.effects == [TempCreated(temp.path, FileTypes.PathSuffix(filename)), UploadCopied(temp.path),
                    PipelineRan(temp.path), TempRemoved(temp.path)]
    ensures FileTypes.UploadAccepted(filename) && temp.create.Fails? ==>
      h == Handled(ExceptionResponse(temp.create.exc), [])
    ensures FileTypes.UploadAccepted(filename) && temp.create.Succeeds? && temp.copy.Fails? ==>
      h == Handled(ExceptionResponse(temp.copy.exc), [TempCreated(temp.path, FileTypes.PathSuffix(filename))])
    ensures
      && FileTypes.UploadAccepted(filename) && temp.create.Succeeds? && temp.copy.Succeeds?
      && MinuteWriter.ProcessMeetingRecording(temp.path, transcriber, summarizer).outcome.Raised?
      ==> h == Handled(ExceptionResponse(
                         MinuteWriter.ProcessMeetingRecording(temp.path, transcriber, summarizer).outcome.exc),
                       [TempCreated(temp.path, FileTypes.PathSuffix(filename)),
                        UploadCopied(temp.path), PipelineRan(temp.path)])
    ensures
      && FileTypes.UploadAccepted(filename) && temp.create.Succeeds? && temp.copy.Succeeds?
      && MinuteWriter.ProcessMeetingRecording(temp.path, transcriber, summarizer).outcome.Returned?
      && temp.unlink.Fails?
      ==> h == Handled(ExceptionResponse(temp.unlink.exc),
                       [TempCreated(temp.path, FileTypes.PathSuffix(filename)),
                        UploadCopied(temp.path), PipelineRan(temp.path)])
  {
    if !FileTypes.UploadAccepted(filename) then
      Handled(HttpError(BadRequest, UnsupportedFormat), [])
    else
      var created := [TempCreated(temp.path, FileTypes.PathSuffix(filename))];
      match temp.create
      case Fails(e) => Handled(ExceptionResponse(e), [])
      case Succeeds =>
        match temp.copy
        case Fails(e) => Handled(ExceptionResponse(e), created)
        case Succeeds =>
          AfterCopy(created[0], temp.path, MinuteWriter.ProcessMeetingRecording(temp.path, transcriber, summarizer).outcome,
                    temp.unlink)
  }

  /** The rest of `process_meeting` once the upload sits in the temporary
      file `path`: the pipeline's outcome, then removing the file. This is
      a proof split of `ProcessMeeting`, whose contract restates it. */
  function AfterCopy(created: Effect, path: string, run: Outcome<string>, unlink: FileOp): (h: Handled)
    ensures run.Raised? ==>
      h == Handled(ExceptionResponse(run.exc), [created, UploadCopied(path), PipelineRan(path)])
    ensures run.Returned? && unlink.Fails? ==>
      h == Handled(ExceptionResponse(unlink.exc), [created, UploadCopied(path), PipelineRan(path)])
    ensures run.Returned? && unlink.Succeeds? ==>
      h == Handled(JsonBody(SuccessEnvelope(run.value)),
                   [created, UploadCopied(path), PipelineRan(path), TempRemoved(path)])
  {
    var ran := [created, UploadCopied(path), PipelineRan(path)];
    match run
    case Raised(e) => Handled(ExceptionResponse(e), ran)
    case Returned(summary) =>
      match unlink
      case Fails(e) => Handled(ExceptionResponse(e), ran)
      case Succeeds => Handled(JsonBody(SuccessEnvelope(summary)), ran + [TempRemoved(path)])
  }

  /** A failing pipeline never produces 400: it reaches the handler as a
      `RuntimeError`, so the reply is 500 with both wrappers' prefixes, and
      the temporary file is left in place. */
  lemma PipelineFailureIsServerError(filename: string, temp: TempFile,
                                     transcriber: MinuteWriter.Transcriber,
                                     summarizer: MinuteWriter.Summarizer)
    requires FileTypes.UploadAccepted(filename)
    requires temp.create.Succeeds? && temp.copy.Succeeds?
    requires MinuteWriter.ProcessMeetingRecording(temp.path, transcriber, summarizer).outcome.Raised?
    ensures var h := ProcessMeeting(filename, temp, transcriber, summarizer);
      var e := MinuteWriter.ProcessMeetingRecording(temp.path, transcriber, summarizer).outcome.exc;
      && h.response == HttpError(500, ErrorPrefix + e.text)
      && StartsWith(h.response.detail, ErrorPrefix + MinuteWriter.ProcessFailure)
      && TempRemoved(temp.path) !in h.effects
  {
    var e := MinuteWriter.ProcessMeetingRecording(temp.path, transcriber, summarizer).outcome.exc;
    assert e.text[..|MinuteWriter.ProcessFailure|] == MinuteWriter.ProcessFailure;
    assert (ErrorPrefix + e.text)[..|ErrorPrefix + MinuteWriter.ProcessFailure|] == ErrorPrefix + MinuteWriter.ProcessFailure;
  }

  /** Every 400 comes from the extension check or from a file-system step
      raising `ValueError` or `FileNotFoundError`, never from the pipeline. */
  lemma BadRequestSources(filename: string, temp: TempFile,
                          transcriber: MinuteWriter.Transcriber,
                          summarizer: MinuteWriter.Summarizer)
    requires ProcessMeeting(filename, temp, transcriber, summarizer).response.HttpError?
    requires ProcessMeeting(filename, temp, transcriber, summarizer).response.status == 400
    ensures
      || !FileTypes.UploadAccepted(filename)
      || (temp.create.Fails? && IsValueOrFileNotFound(temp.create.exc.kind))
      || (temp.copy.Fails? && IsValueOrFileNotFound(temp.copy.exc.kind))
      || (temp.unlink.Fails? && IsValueOrFileNotFound(temp.unlink.exc.kind))
  {
  }

  // ---- chat ----

  const EventStream := "text/event-stream"
  const DefaultThreadId := "1"

  datatype ChatResponse =
    | StreamingResponse(mediaType: string, config: Chatbot.Config, chunks: seq<string>)
    | ChatError(status: int, detail: string)

  /** `chat(query, thread_id)`: builds `{"configurable": {"thread_id": ...}}`
      (the thread id defaults to `"1"`) and answers with the chatbot's stream
      as `text/event-stream`. Only a failure to construct the agent, given as
      `agentFailure`, turns into a 500; failures while streaming travel
      inside the stream. */
  function Chat(query: map<string, string>, threadId: Option<string>, agentFailure: Option<Exc>,
                model: (Chatbot.Config, string) -> Chatbot.Upstream): (r: ChatResponse)
    ensures agentFailure.Some? ==> r == ChatError(500, "An error occurred: " + agentFailure.value.text)
    ensures agentFailure.None? ==>
      && r.StreamingResponse?
      && r.mediaType == "text/event-stream"
      && r.config.Keys == {"configurable"}
      && r.config["configurable"] == map["thread_id" := if threadId.Some? then threadId.value else "1"]
      && r.chunks == Chatbot.StreamChatbot(query, r.config, model)
  {
    var config := map["configurable" := map["thread_id" := if threadId.Some? then threadId.value else DefaultThreadId]];
    match agentFailure
    case Some(e) => ChatError(InternalServerError, ErrorPrefix + e.text)
    case None => StreamingResponse(EventStream, config, Chatbot.StreamChatbot(query, config, model))
  }
}
