/** The writing side of the chat event stream, `ChatbotAgent.stream_chatbot`,
    over a finite upstream, and the round trip through the playground's
    reader. */
module Chatbot {
  import opened Outcomes
  import opened Text
  import Seqs
  import Sse

  /** What the chat graph streams for one request: the content of each
      message chunk, in generation order, and the text of the exception it
      raises after them, if it raises. */
  datatype Upstream = Upstream(fragments: seq<string>, failure: Option<string>)

  /** The run configuration handed to the graph, `{"configurable": {...}}`. */
  type Config = map<string, map<string, string>>

  /** The key of the user's text in the chat query. */
  const MessageKey := "message"

  /** One event-stream frame: `data: <payload>` and a blank line. */
  function Frame(payload: string): (r: string)
    ensures StartsWith(r, "data: ") && EndsWith(r, "\n\n")
    ensures |r| == |payload| + 8 && r[6..|r| - 2] == payload
  {
    "data: " + payload + "\n\n"
  }

  /** The texts `stream_chatbot` frames, in order: every fragment, then the
      error text when the upstream raised. */
  function Payloads(u: Upstream): seq<string> {
    u.fragments + (if u.failure.Some? then [u.failure.value] else [])
  }

  /** `stream_chatbot(query, config)`: one frame per upstream fragment, in
      upstream order, and one last frame with the exception text if the
      upstream raised; the generator itself never raises. A query with no
      `message` key raises `KeyError` inside the `try` before the graph is
      started, so the only frame carries that error's text. */
  function StreamChatbot(query: map<string, string>, config: Config,
                         model: (Config, string) -> Upstream): (chunks: seq<string>)
    ensures MessageKey !in query ==> chunks == [Frame("'message'")]
    ensures MessageKey in query ==>
      var u := model(config, query[MessageKey]);
      && |chunks| == |u.fragments| + (if u.failure.Some? then 1 else 0)
      && (forall i :: 0 <= i < |u.fragments| ==> chunks[i] == Frame(u.fragments[i]))
      && (u.failure.Some? ==> chunks[|chunks| - 1] == Frame(u.failure.value))
  {
    if MessageKey !in query then
      assert KeyErrorText(MessageKey) == "'message'";
      [Frame(KeyErrorText(MessageKey))]
    else
      Seqs.Map(Frame, Payloads(model(config, query[MessageKey])))
  }

  /** The response body: the frames back to back. */
  function Body(chunks: seq<string>): string {
    Seqs.Flatten(chunks)
  }

  /** What the playground iterates over: the body's lines, each decoding to
      itself (the body is the UTF-8 encoding of a string). */
  function ReceivedLines(body: string): seq<Sse.RawLine> {
    Seqs.Map((l: string) => Sse.Decoded(l), SplitLines(body))
  }

  /** The lines of a sequence of frames: a `data: ` line, then an empty line,
      for each payload. */
  function FrameLines(payloads: seq<string>): (lines: seq<string>)
    ensures |lines| == 2 * |payloads|
  {
    seq(2 * |payloads|, i requires 0 <= i < 2 * |payloads| =>
      if i % 2 == 0 then "data: " + payloads[i / 2] else "")
  }

  lemma {:induction false} BodyIsTerminatedLines(payloads: seq<string>)
    ensures Body(Seqs.Map(Frame, payloads)) == Terminated(FrameLines(payloads))
    decreases |payloads|
  {
    var term := (l: string) => l + "\n";
    if payloads != [] {
      var p := payloads[0];
      var lines := FrameLines(payloads);
      assert lines[2..] == FrameLines(payloads[1..]);
      assert lines == ["data: " + p, ""] + lines[2..];
      Seqs.MapAppend(term, ["data: " + p, ""], lines[2..]);
      Seqs.FlattenAppend(Seqs.Map(term, ["data: " + p, ""]), Seqs.Map(term, lines[2..]));
      assert Seqs.Flatten(Seqs.Map(term, ["data: " + p, ""])) == Frame(p);
      assert Seqs.Map(Frame, payloads)[1..] == Seqs.Map(Frame, payloads[1..]);
      BodyIsTerminatedLines(payloads[1..]);
    }
  }

  /** Dropping empty strings does not change a concatenation. */
  lemma {:induction false} FlattenNonEmpty(ss: seq<string>)
    ensures Seqs.Flatten(Seqs.Filter(Sse.NonEmpty, ss)) == Seqs.Flatten(ss)
    decreases |ss|
  {
    if ss != [] {
      FlattenNonEmpty(ss[1..]);
      var head: seq<string> := if ss[0] != "" then [ss[0]] else [];
      Seqs.FlattenAppend(head, Seqs.Filter(Sse.NonEmpty, ss[1..]));
    }
  }

  /** Framing a payload and reading it back: the frame splits into a
      `data: ` line and an empty line, and the first parses to the payload. */
  lemma FrameRoundTrip(payload: string)
    requires NoLineBreaks(payload)
    ensures var lines := SplitLines(Frame(payload));
      && lines == ["data: " + payload, ""]
      && Sse.ParseSseLine(Sse.Decoded(lines[0])) == payload
  {
    BodyIsTerminatedLines([payload]);
    assert Seqs.Map(Frame, [payload]) == [Frame(payload)];
    assert Seqs.Flatten([Frame(payload)]) == Frame(payload);
    assert FrameLines([payload]) == ["data: " + payload, ""];
    SplitTerminated(["data: " + payload, ""]);
  }

  /** The decoded lines of a stream of frames are its frame lines. */
  lemma ReceivedFrameLines(payloads: seq<string>)
    requires forall i :: 0 <= i < |payloads| ==> NoLineBreaks(payloads[i])
    ensures ReceivedLines(Body(Seqs.Map(Frame, payloads))) ==
      Seqs.Map((l: string) => Sse.Decoded(l), FrameLines(payloads))
  {
    var lines := FrameLines(payloads);
    forall i | 0 <= i < |lines|
      ensures NoLineBreaks(lines[i])
    {
      if i % 2 == 0 {
        assert lines[i] == "data: " + payloads[i / 2];
      }
    }
    BodyIsTerminatedLines(payloads);
    SplitTerminated(lines);
  }

  /** The even frame lines parse back to the payloads. */
  lemma ParsedFrameLines(payloads: seq<string>)
    ensures Seqs.Map(Sse.ParseSseLine,
      Sse.EvenLines(Seqs.Map((l: string) => Sse.Decoded(l), FrameLines(payloads)))) == payloads
  {
    var received := Seqs.Map((l: string) => Sse.Decoded(l), FrameLines(payloads));
    var parsed := Seqs.Map(Sse.ParseSseLine, Sse.EvenLines(received));
    forall k | 0 <= k < |payloads|
      ensures parsed[k] == payloads[k]
    {
      var line := "data: " + payloads[k];
      assert received[2 * k] == Sse.Decoded(line);
      assert line[..6] == "data: ";
      assert line[6..] == payloads[k];
    }
  }

  /** Reading back a whole stream of frames yields the payloads joined, as
      long as none of them contains a line break. */
  lemma StreamRoundTrip(payloads: seq<string>)
    requires forall i :: 0 <= i < |payloads| ==> NoLineBreaks(payloads[i])
    ensures Sse.Accumulated(ReceivedLines(Body(Seqs.Map(Frame, payloads)))) == Seqs.Flatten(payloads)
  {
    ReceivedFrameLines(payloads);
    ParsedFrameLines(payloads);
    FlattenNonEmpty(payloads);
  }

  /** End to end: for a query with a `message`, the playground reassembles
      exactly the upstream fragments followed by the error text, whenever
      none of them contains a line break. */
  lemma ChatRoundTrip(query: map<string, string>, config: Config,
                      model: (Config, string) -> Upstream)
    requires MessageKey in query
    requires var ps := Payloads(model(config, query[MessageKey]));
      forall i :: 0 <= i < |ps| ==> NoLineBreaks(ps[i])
    ensures var u := model(config, query[MessageKey]);
      Sse.Accumulated(ReceivedLines(Body(StreamChatbot(query, config, model)))) ==
      Seqs.Flatten(u.fragments) + (if u.failure.Some? then u.failure.value else "")
  {
    var u := model(config, query[MessageKey]);
    StreamRoundTrip(Payloads(u));
    var tail: seq<string> := if u.failure.Some? then [u.failure.value] else [];
    Seqs.FlattenAppend(u.fragments, tail);
  }

  /** The proviso matters: a fragment that is just `"\n"` frames as
      `data: \n\n\n`, three lines instead of two. The next frame's `data: `
      line then falls on an odd index and is skipped, and two empty lines
      are read in its place, so the reader shows neither fragment. */
  lemma {:induction false} LineBreakFragmentMisread(x: string)
    requires NoLineBreaks(x)
    ensures Sse.Accumulated(ReceivedLines(Body(Seqs.Map(Frame, ["\n", x])))) == "  \n\n  \n\n"
    ensures Seqs.Flatten(["\n", x]) == "\n" + x
  {
    MisreadLines(x);
    MisreadParses(x);
    assert Seqs.Flatten(["\n", x]) == "\n" + Seqs.Flatten([x]);
    assert [x][1..] == [];
    assert Seqs.Flatten([x]) == x + Seqs.Flatten([x][1..]);
  }

  /** Reading those lines keeps only the empty ones. */
  lemma MisreadParses(x: string)
    ensures Sse.Accumulated(Seqs.Map((l: string) => Sse.Decoded(l), ["data: ", "", "", "data: " + x, ""]))
      == "  \n\n  \n\n"
  {
    var received := Seqs.Map((l: string) => Sse.Decoded(l), ["data: ", "", "", "data: " + x, ""]);
    var even := Sse.EvenLines(received);
    assert even == [Sse.Decoded("data: "), Sse.Decoded(""), Sse.Decoded("")];
    var parsed := Seqs.Map(Sse.ParseSseLine, even);
    MisreadParsed();
    FlattenNonEmpty(parsed);
    MisreadJoined(parsed);
  }

  lemma MisreadParsed()
    ensures Seqs.Map(Sse.ParseSseLine, [Sse.Decoded("data: "), Sse.Decoded(""), Sse.Decoded("")])
      == ["", "  \n\n", "  \n\n"]
  {
    assert StartsWith("data: ", "data: ");
  }

  lemma MisreadJoined(parsed: seq<string>)
    requires parsed == ["", "  \n\n", "  \n\n"]
    ensures Seqs.Flatten(parsed) == "  \n\n  \n\n"
  {
    assert parsed[3..] == [];
    assert Seqs.Flatten(parsed[2..]) == "  \n\n";
    assert Seqs.Flatten(parsed[1..]) == "  \n\n  \n\n";
  }

  /** The lines of that body: the `"\n"` frame contributes three. */
  lemma MisreadLines(x: string)
    requires NoLineBreaks(x)
    ensures ReceivedLines(Body(Seqs.Map(Frame, ["\n", x]))) ==
      Seqs.Map((l: string) => Sse.Decoded(l), ["data: ", "", "", "data: " + x, ""])
  {
    var first: seq<string> := ["data: ", "", ""];
    var second := FrameLines([x]);
    assert second == ["data: " + x, ""];
    var term := (l: string) => l + "\n";
    var firstTerm := Seqs.Map(term, first);
    assert firstTerm[0] == "data: \n" && firstTerm[1] == "\n" && firstTerm[2] == "\n";
    assert firstTerm[3..] == [];
    assert Seqs.Flatten(firstTerm[2..]) == "\n";
    assert Seqs.Flatten(firstTerm[1..]) == "\n\n";
    assert Seqs.Flatten(firstTerm) == "data: \n\n\n";
    assert Terminated(first) == Frame("\n");
    BodyIsTerminatedLines([x]);
    assert Seqs.Map(Frame, ["\n", x]) == [Frame("\n")] + Seqs.Map(Frame, [x]);
    Seqs.FlattenAppend([Frame("\n")], Seqs.Map(Frame, [x]));
    Seqs.MapAppend(term, first, second);
    Seqs.FlattenAppend(firstTerm, Seqs.Map(term, second));
    assert Body(Seqs.Map(Frame, ["\n", x])) == Terminated(first + second);
    SplitTerminated(first + second);
    assert first + second == ["data: ", "", "", "data: " + x, ""];
  }
}
