/** The playground's reading side of the chat event stream: `parse_sse_line`
    and the loop of `process_streaming_response` that keeps every other line
    and concatenates what it extracts. This is the code's own narrow subset
    of server-sent events: the field must be exactly `data`, followed by the
    exact separator `": "`. */
module Sse {
  import opened Outcomes
  import opened Text
  import Seqs

  /** One line of the response body. `Decoded(s)` is a line whose bytes
      decode as UTF-8 to `s` (an empty byte string is `Decoded("")`);
      `Undecodable` is a non-empty line that is not valid UTF-8. */
  datatype RawLine = Decoded(s: string) | Undecodable

  const FieldSeparator := ": "
  const DataField := "data"

  /** What an empty line yields: two spaces and a blank line. */
  const EmptyLineText := "  \n\n"

  /** `parse_sse_line`: the payload of a `data: ` line, a fixed text for an
      empty line, and the empty string for anything else, decoding
      failures included. */
  function ParseSseLine(line: RawLine): (r: string)
    ensures line == Decoded("") ==> r == "  \n\n"
    ensures line.Undecodable? ==> r == ""
    ensures line.Decoded? && line.s != "" ==>
      r == (if StartsWith(line.s, "data: ") then line.s[6..] else "")
  {
    match line
    case Undecodable => ""
    case Decoded(s) =>
      if s == "" then
        EmptyLineText
      else
        DataSplit(s);
        match SplitOnce(s, FieldSeparator)
        case Some((field, value)) => if field == DataField then value else ""
        case None => ""
  }

  /** Splitting at the first `": "` gives the field name `data` exactly when
      the line starts with `data: `, and then the value is the rest. */
  lemma DataSplit(s: string)
    ensures var parts := SplitOnce(s, ": ");
      (parts.Some? && parts.value.0 == "data") <==> StartsWith(s, "data: ")
    ensures var parts := SplitOnce(s, ": ");
      StartsWith(s, "data: ") ==> parts.Some? && parts.value.1 == s[6..]
  {
    var parts := SplitOnce(s, ": ");
    if StartsWith(s, "data: ") {
      assert OccursAt(s, ": ", 4);
      assert parts.Some?;
      var field := parts.value.0;
      assert s == field + ": " + parts.value.1;
      assert s[..6] == "data: ";
      forall j: nat | j < 4
        ensures !OccursAt(s, ": ", j)
      {
        assert s[j] == "data: "[j];
      }
      assert OccursAt(s, ": ", |field|);
      assert field == s[..|field|];
      assert s[..6] == "data: ";
    }
    if parts.Some? && parts.value.0 == "data" {
      assert s == "data" + ": " + parts.value.1;
    }
  }

  /** The lines at even positions 0, 2, 4, and so on. */
  function EvenLines(lines: seq<RawLine>): (r: seq<RawLine>)
    ensures |r| == (|lines| + 1) / 2
    ensures forall k :: 0 <= k < |r| ==> r[k] == lines[2 * k]
  {
    seq((|lines| + 1) / 2, k requires 0 <= k < (|lines| + 1) / 2 => lines[2 * k])
  }

  predicate NonEmpty(s: string) { s != "" }

  /** The assistant message built from the response lines: the in-order
      concatenation of the non-empty parses of the even-indexed lines. */
  function Accumulated(lines: seq<RawLine>): string {
    Seqs.Flatten(Seqs.Filter(NonEmpty, Seqs.Map(ParseSseLine, EvenLines(lines))))
  }

  /** One more line extends the message by its parse when its index is
      even, and leaves it alone when odd. */
  lemma AccumulatedStep(lines: seq<RawLine>, i: nat)
    requires i < |lines|
    ensures Accumulated(lines[..i + 1]) ==
      Accumulated(lines[..i]) + (if i % 2 == 0 then ParseSseLine(lines[i]) else "")
  {
    var before := EvenLines(lines[..i]);
    var after := EvenLines(lines[..i + 1]);
    var added: seq<RawLine> := if i % 2 == 0 then [lines[i]] else [];
    assert after == before + added;
    Seqs.MapAppend(ParseSseLine, before, added);
    var parsed := Seqs.Map(ParseSseLine, before);
    var parsedAdded := Seqs.Map(ParseSseLine, added);
    Seqs.FilterAppend(NonEmpty, parsed, parsedAdded);
    Seqs.FlattenAppend(Seqs.Filter(NonEmpty, parsed), Seqs.Filter(NonEmpty, parsedAdded));
    if i % 2 == 0 {
      var c := ParseSseLine(lines[i]);
      assert parsedAdded == [c];
      assert Seqs.Filter(NonEmpty, [c]) == (if c != "" then [c] else []);
      assert Seqs.Flatten(Seqs.Filter(NonEmpty, parsedAdded)) == c;
    } else {
      assert parsedAdded == [];
    }
  }

  datatype ChatMessage = ChatMessage(role: string, content: string)

  /** The accumulation loop of `process_streaming_response`: every other
      line is parsed, non-empty parses are appended, and the result is added
      to the chat history, or a warning is shown when nothing was received.
      `interrupted` says that reading the response raised after `lines`;
      then an error is shown and the partial message is discarded. */
  method ProcessStreamingResponse(lines: seq<RawLine>, interrupted: bool, history: seq<ChatMessage>)
    returns (updated: seq<ChatMessage>, warnedEmpty: bool, errorShown: bool)
    ensures errorShown <==> interrupted
    ensures interrupted ==> updated == history && !warnedEmpty
    ensures !interrupted ==> (warnedEmpty <==> Accumulated(lines) == "")
    ensures warnedEmpty ==> updated == history
    ensures !interrupted && !warnedEmpty ==>
      updated == history + [ChatMessage("assistant", Accumulated(lines))]
  {
    var message := "";
    var i := 0;
    while i < |lines|
      invariant i <= |lines|
      invariant message == Accumulated(lines[..i])
    {
      if i % 2 == 0 {
        var content := ParseSseLine(lines[i]);
        if content != "" {
          message := message + content;
        }
      }
      AccumulatedStep(lines, i);
      i := i + 1;
    }
    assert lines[..i] == lines;
    if interrupted {
      updated, warnedEmpty, errorShown := history, false, true;
    } else if message != "" {
      updated, warnedEmpty, errorShown := history + [ChatMessage("assistant", message)], false, false;
    } else {
      updated, warnedEmpty, errorShown := history, true, false;
    }
  }
}
