/** The minute-writer pipeline: the `transcribe` and `summarize` steps of
    `MinuteWriter`, the two-node graph of `create_minute_writer_graph`, and
    `process_meeting_recording`. The speech-to-text client and the chat
    model are parameters: functions that return a text or raise. */
module MinuteWriter {
  import opened Outcomes
  import opened Text
  import Schemas

  /** The state dictionary passed from step to step. The code only ever
      reads or writes these three keys; a key that is absent is `None`. */
  datatype State = State(audioPath: Option<string>, transcript: Option<string>, summary: Option<string>)

  /** A request to a hosted model, recorded in the order it is made. */
  datatype Call = TranscriberCall(audioPath: string) | SummarizerCall(transcript: string)

  /** The speech-to-text client: `whisper.transcribe(audio_path)`. */
  type Transcriber = string -> Outcome<string>

  /** The chat model asked to summarise a transcript (the prompt is a fixed
      text around the transcript): the reply's content, or an exception. */
  type Summarizer = string -> Outcome<string>

  /** The result of running one or more steps, and the model calls made. */
  datatype Step = Step(outcome: Outcome<State>, calls: seq<Call>)

  const TranscribeFailure := "Failed to transcribe audio: "
  const SummarizeFailure := "Failed to summarize transcript: "
  const EmptyTranscript := "Missing or empty transcript in state"
  const ProcessFailure := "Failed to process meeting recording: "

  /** The state as the dictionary `MinuteWriterOutput(**state)` receives. */
  function StateRecord(s: State): Schemas.Record {
    (if s.audioPath.Some? then map["audio_path" := Schemas.Str(s.audioPath.value)] else map[])
    + (if s.transcript.Some? then map["transcript" := Schemas.Str(s.transcript.value)] else map[])
    + (if s.summary.Some? then map["summary" := Schemas.Str(s.summary.value)] else map[])
  }

  /** The text of the validation error (the field names it reports; the
      library's own wording is not reproduced). */
  function ValidationErrorText(fields: seq<string>): string {
    "validation error for MinuteWriterOutput: " + Join(fields, ", ")
  }

  /** `MinuteWriter.transcribe`: sets `transcript` to what the transcriber
      returns for `audio_path` and changes nothing else. Any failure,
      including a state with no `audio_path`, is re-raised as `ValueError`. */
  function Transcribe(s: State, transcriber: Transcriber): (r: Step)
    ensures r.outcome.Raised? ==>
      r.outcome.exc.kind == ValueError && StartsWith(r.outcome.exc.text, TranscribeFailure)
    ensures s.audioPath.None? ==>
      r == Step(Raised(Exc(ValueError, TranscribeFailure + "'audio_path'")), [])
    ensures s.audioPath.Some? ==> r.calls == [TranscriberCall(s.audioPath.value)]
    ensures r.outcome.Returned? <==> s.audioPath.Some? && transcriber(s.audioPath.value).Returned?
    ensures r.outcome.Returned? ==>
      var after := r.outcome.value;
      && after.transcript == Some(transcriber(s.audioPath.value).value)
      && after.audioPath == s.audioPath
      && after.summary == s.summary
  {
    match s.audioPath
    case None =>
      assert KeyErrorText("audio_path") == "'audio_path'";
      Step(Raised(Exc(ValueError, TranscribeFailure + KeyErrorText("audio_path"))), [])
    case Some(path) =>
      match transcriber(path)
      case Raised(e) => Step(Raised(Exc(ValueError, TranscribeFailure + e.text)), [TranscriberCall(path)])
      case Returned(text) => Step(Returned(s.(transcript := Some(text))), [TranscriberCall(path)])
  }

  /** `MinuteWriter.summarize`: with a non-empty transcript, asks the chat
      model for a summary, stores its content in `summary`, and checks the
      result against `MinuteWriterOutput`. Every failure, the missing or
      empty transcript among them, is re-raised as `ValueError`; the model is
      not called when the transcript is missing or empty. */
  function Summarize(s: State, summarizer: Summarizer): (r: Step)
    ensures r.outcome.Raised? ==>
      r.outcome.exc.kind == ValueError && StartsWith(r.outcome.exc.text, SummarizeFailure)
    ensures s.transcript.None? ==>
      r == Step(Raised(Exc(ValueError, SummarizeFailure + "'transcript'")), [])
    ensures s.transcript == Some("") ==>
      r == Step(Raised(Exc(ValueError, SummarizeFailure + EmptyTranscript)), [])
    ensures s.transcript.Some? && s.transcript.value != "" ==>
      r.calls == [SummarizerCall(s.transcript.value)]
    ensures r.outcome.Returned? <==>
      && s.transcript.Some? && s.transcript.value != ""
      && summarizer(s.transcript.value).Returned?
      && s.audioPath.Some?
    ensures r.outcome.Returned? ==>
      var after := r.outcome.value;
      && after.summary == Some(summarizer(s.transcript.value).value)
      && after.audioPath == s.audioPath
      && after.transcript == s.transcript
  {
    match s.transcript
    case None =>
      assert KeyErrorText("transcript") == "'transcript'";
      Step(Raised(Exc(ValueError, SummarizeFailure + KeyErrorText("transcript"))), [])
    case Some(transcript) =>
      if transcript == "" then
        Step(Raised(Exc(ValueError, SummarizeFailure + EmptyTranscript)), [])
      else
        var calls := [SummarizerCall(transcript)];
        match summarizer(transcript)
        case Raised(e) => Step(Raised(Exc(ValueError, SummarizeFailure + e.text)), calls)
        case Returned(content) =>
          var after := s.(summary := Some(content));
          match Schemas.ValidateMinuteWriterOutput(StateRecord(after))
          case Err(fields) =>
            Step(Raised(Exc(ValueError, SummarizeFailure + ValidationErrorText(fields))), calls)
          case Ok(_) =>
            Step(Returned(after), calls)
  }

  /** A state with a transcript but no `audio_path` gets as far as the model
      call, then fails output validation, which reports `audio_path`. */
  lemma SummarizeRejectsMissingAudioPath(s: State, summarizer: Summarizer)
    requires s.audioPath.None? && s.transcript.Some? && s.transcript.value != ""
    requires summarizer(s.transcript.value).Returned?
    ensures var r := Summarize(s, summarizer);
      && r.calls == [SummarizerCall(s.transcript.value)]
      && r.outcome.Raised? && r.outcome.exc.kind == ValueError
      && r.outcome.exc.text == SummarizeFailure + ValidationErrorText(["audio_path"])
  {
    var after := s.(summary := Some(summarizer(s.transcript.value).value));
    var result := Schemas.ValidateMinuteWriterOutput(StateRecord(after));
    assert result.Err?;
    var errs := result.error;
    assert "audio_path" in errs;
    assert errs == Schemas.FieldErrors(StateRecord(after), Schemas.MinuteWriterOutputFields);
  }

  // ---- The graph ----

  datatype Node = TranscribeNode | SummarizeNode

  /** A workflow graph: an entry node, edges, and a finish node. */
  datatype Graph = Graph(entry: Node, edges: seq<(Node, Node)>, finish: Node)

  /** The target of the first edge leaving `from`. */
  function Successor(edges: seq<(Node, Node)>, from: Node): Option<Node>
    decreases |edges|
  {
    if edges == [] then None
    else if edges[0].0 == from then Some(edges[0].1)
    else Successor(edges[1..], from)
  }

  /** The nodes a run visits, in order: from `at`, follow the edges until
      the finish node; a run of a graph visits at most one node per edge
      plus the entry. */
  function Walk(g: Graph, at: Node, fuel: nat): seq<Node>
    decreases fuel
  {
    if at == g.finish || fuel == 0 then [at]
    else
      match Successor(g.edges, at)
      case None => [at]
      case Some(next) => [at] + Walk(g, next, fuel - 1)
  }

  function Schedule(g: Graph): seq<Node> {
    Walk(g, g.entry, |g.edges|)
  }

  /** `create_minute_writer_graph`: entry `transcribe`, one edge to
      `summarize`, finish `summarize`; a run visits the two in that order. */
  function CreateMinuteWriterGraph(): (g: Graph)
    ensures Schedule(g) == [TranscribeNode, SummarizeNode]
    ensures g.entry == TranscribeNode && g.finish == SummarizeNode
    ensures |g.edges| == 1
  {
    Graph(TranscribeNode, [(TranscribeNode, SummarizeNode)], SummarizeNode)
  }

  function RunNode(n: Node, s: State, transcriber: Transcriber, summarizer: Summarizer): Step {
    match n
    case TranscribeNode => Transcribe(s, transcriber)
    case SummarizeNode => Summarize(s, summarizer)
  }

  /** Runs the nodes in order, each on the previous node's state, stopping
      at the first exception. */
  function Run(nodes: seq<Node>, s: State, transcriber: Transcriber, summarizer: Summarizer): Step
    decreases |nodes|
  {
    if nodes == [] then
      Step(Returned(s), [])
    else
      var first := RunNode(nodes[0], s, transcriber, summarizer);
      match first.outcome
      case Raised(_) => first
      case Returned(next) =>
        var rest := Run(nodes[1..], next, transcriber, summarizer);
        Step(rest.outcome, first.calls + rest.calls)
  }

  /** `graph.invoke(state)` */
  function Invoke(g: Graph, s: State, transcriber: Transcriber, summarizer: Summarizer): Step {
    Run(Schedule(g), s, transcriber, summarizer)
  }

  /** Invoking the minute-writer graph is transcribe followed by summarize. */
  lemma InvokeIsTranscribeThenSummarize(s: State, transcriber: Transcriber, summarizer: Summarizer)
    ensures var first := Transcribe(s, transcriber);
      Invoke(CreateMinuteWriterGraph(), s, transcriber, summarizer) ==
        if first.outcome.Raised? then first
        else
          var second := Summarize(first.outcome.value, summarizer);
          Step(second.outcome, first.calls + second.calls)
  {
    var nodes := [TranscribeNode, SummarizeNode];
    assert nodes[1..][1..] == [];
    var first := Transcribe(s, transcriber);
    if first.outcome.Returned? {
      var second := Summarize(first.outcome.value, summarizer);
      if second.outcome.Returned? {
        assert Run(nodes[1..], first.outcome.value, transcriber, summarizer) ==
          Step(second.outcome, second.calls + []);
      }
    }
  }

  // ---- process_meeting_recording ----

  datatype PipelineRun = PipelineRun(outcome: Outcome<string>, calls: seq<Call>)

  /** `process_meeting_recording(path)`: runs the graph from
      `{"audio_path": path}` and returns only the summary. Every failure is
      re-raised as `RuntimeError`. */
  function ProcessMeetingRecording(path: string, transcriber: Transcriber, summarizer: Summarizer)
    : (r: PipelineRun)
    ensures r.outcome.Raised? ==>
      r.outcome.exc.kind == RuntimeError && StartsWith(r.outcome.exc.text, ProcessFailure)
    ensures r.outcome.Returned? <==>
      && transcriber(path).Returned? && transcriber(path).value != ""
      && summarizer(transcriber(path).value).Returned?
    ensures r.outcome.Returned? ==> r.outcome.value == summarizer(transcriber(path).value).value
    ensures r.calls ==
      [TranscriberCall(path)] +
      (if transcriber(path).Returned? && transcriber(path).value != ""
       then [SummarizerCall(transcriber(path).value)] else [])
  {
    var start := State(Some(path), None, None);
    InvokeIsTranscribeThenSummarize(start, transcriber, summarizer);
    var step := Invoke(CreateMinuteWriterGraph(), start, transcriber, summarizer);
    match step.outcome
    case Raised(e) =>
      PipelineRun(Raised(Exc(RuntimeError, ProcessFailure + e.text)), step.calls)
    case Returned(final) =>
      match final.summary
      case Some(summary) => PipelineRun(Returned(summary), step.calls)
      case None => PipelineRun(Raised(Exc(RuntimeError, ProcessFailure + KeyErrorText("summary"))), step.calls)
  }

  /** The exception texts of the pipeline, layer by layer. */
  lemma PipelineFailureTexts(path: string, transcriber: Transcriber, summarizer: Summarizer)
    ensures var r := ProcessMeetingRecording(path, transcriber, summarizer);
      && (transcriber(path).Raised? ==>
            r.outcome == Raised(Exc(RuntimeError,
              ProcessFailure + TranscribeFailure + transcriber(path).exc.text)))
      && (transcriber(path) == Returned("") ==>
            r.outcome == Raised(Exc(RuntimeError, ProcessFailure + SummarizeFailure + EmptyTranscript)))
      && (transcriber(path).Returned? && transcriber(path).value != "" &&
          summarizer(transcriber(path).value).Raised? ==>
            r.outcome == Raised(Exc(RuntimeError,
              ProcessFailure + SummarizeFailure + summarizer(transcriber(path).value).exc.text)))
  {
    InvokeIsTranscribeThenSummarize(State(Some(path), None, None), transcriber, summarizer);
  }
}
