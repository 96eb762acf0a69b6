/** Operations on `string` (a `seq<char>`) with the meaning of the Python
    `str` and `bytes` methods the code calls: `startswith`, `endswith`,
    `lower`, `upper`, `find`, `rfind`, `split(sep, 1)` and `splitlines`. */
module Text {
  import opened Outcomes
  import Seqs

  predicate StartsWith(s: string, prefix: string) {
    |prefix| <= |s| && s[..|prefix|] == prefix
  }

  predicate EndsWith(s: string, suffix: string) {
    |suffix| <= |s| && s[|s| - |suffix|..] == suffix
  }

  /** `s.endswith(tuple)`: some member of the tuple is a suffix. */
  predicate EndsWithAny(s: string, suffixes: seq<string>) {
    exists i :: 0 <= i < |suffixes| && EndsWith(s, suffixes[i])
  }

  predicate IsAsciiUpper(c: char) { 'A' <= c <= 'Z' }

  predicate IsAsciiLower(c: char) { 'a' <= c <= 'z' }

  function LowerChar(c: char): char {
    if IsAsciiUpper(c) then (c as int + 32) as char else c
  }

  function UpperChar(c: char): char {
    if IsAsciiLower(c) then (c as int - 32) as char else c
  }

  function Lower(s: string): string {
    Seqs.Map(LowerChar, s)
  }

  function Upper(s: string): string {
    Seqs.Map(UpperChar, s)
  }

  /** Lower-casing commutes with taking a slice. */
  lemma LowerSlice(s: string, lo: nat, hi: nat)
    requires lo <= hi <= |s|
    ensures Lower(s)[lo..hi] == Lower(s[lo..hi])
  {
  }

  /** `sep` occurs in `s` starting at index `i`. */
  predicate OccursAt(s: string, sep: string, i: nat) {
    i + |sep| <= |s| && s[i..i + |sep|] == sep
  }

  /** `s.find(sep, i)`: the first index from `i` on at which `sep` occurs. */
  function IndexFrom(s: string, sep: string, i: nat): (r: Option<nat>)
    ensures r.Some? ==> i <= r.value && OccursAt(s, sep, r.value)
    ensures r.Some? ==> forall j: nat :: i <= j < r.value ==> !OccursAt(s, sep, j)
    ensures r.None? ==> forall j: nat :: i <= j ==> !OccursAt(s, sep, j)
    decreases |s| - i
  {
    if i + |sep| > |s| then None
    else if OccursAt(s, sep, i) then Some(i)
    else IndexFrom(s, sep, i + 1)
  }

  /** `s.split(sep, 1)` when it yields two parts: the text before the first
      occurrence of `sep` and everything after it. `None` stands for the
      one-part list Python returns when `sep` does not occur. */
  function SplitOnce(s: string, sep: string): (r: Option<(string, string)>)
    requires |sep| > 0
    ensures r.Some? ==> s == r.value.0 + sep + r.value.1
    ensures r.Some? ==> forall j: nat :: j < |r.value.0| ==> !OccursAt(s, sep, j)
    ensures r.None? ==> forall j: nat :: !OccursAt(s, sep, j)
  {
    match IndexFrom(s, sep, 0)
    case None => None
    case Some(k) =>
      assert s == s[..k] + s[k..k + |sep|] + s[k + |sep|..];
      Some((s[..k], s[k + |sep|..]))
  }

  /** `s.rfind(c)`: the last index holding `c`. */
  function LastIndexOf(s: string, c: char): (r: Option<nat>)
    ensures r.Some? ==> r.value < |s| && s[r.value] == c
    ensures r.Some? ==> forall j :: r.value < j < |s| ==> s[j] != c
    ensures r.None? ==> c !in s
    decreases |s|
  {
    if s == [] then None
    else if s[|s| - 1] == c then Some(|s| - 1)
    else LastIndexOf(s[..|s| - 1], c)
  }

  /** A position holding `c` with no `c` after it is the last index of `c`. */
  lemma {:induction false} LastIndexOfEnding(s: string, c: char, k: nat)
    requires k < |s| && s[k] == c
    requires forall j :: k < j < |s| ==> s[j] != c
    ensures LastIndexOf(s, c) == Some(k)
    decreases |s|
  {
    if k < |s| - 1 {
      LastIndexOfEnding(s[..|s| - 1], c, k);
    }
  }

  /** `sep.join(parts)` */
  function Join(parts: seq<string>, sep: string): string
    decreases |parts|
  {
    if parts == [] then "" else if |parts| == 1 then parts[0] else parts[0] + sep + Join(parts[1..], sep)
  }

  /** The line boundaries `bytes.splitlines` recognises. */
  predicate IsLineBreak(c: char) { c == '\n' || c == '\r' }

  predicate NoLineBreaks(s: string) {
    forall i :: 0 <= i < |s| ==> !IsLineBreak(s[i])
  }

  /** Index of the first line break, or `|s|` when there is none. */
  function FirstBreak(s: string): (k: nat)
    ensures k <= |s|
    ensures k < |s| ==> IsLineBreak(s[k])
    ensures forall j :: 0 <= j < k ==> !IsLineBreak(s[j])
    decreases |s|
  {
    if s == [] || IsLineBreak(s[0]) then 0 else 1 + FirstBreak(s[1..])
  }

  /** `s.splitlines()` on bytes: lines end at `\n`, `\r` or `\r\n`, the
      break itself is dropped, and a final break adds no empty line. */
  function SplitLines(s: string): (lines: seq<string>)
    ensures forall i :: 0 <= i < |lines| ==> NoLineBreaks(lines[i])
    decreases |s|
  {
    if s == [] then
      []
    else
      var k := FirstBreak(s);
      if k == |s| then
        [s]
      else
        var next := if s[k] == '\r' && k + 1 < |s| && s[k + 1] == '\n' then k + 2 else k + 1;
        [s[..k]] + SplitLines(s[next..])
  }

  /** Each line followed by `\n`, all concatenated. */
  function Terminated(lines: seq<string>): string {
    Seqs.Flatten(Seqs.Map((l: string) => l + "\n", lines))
  }

  /** `splitlines` undoes newline termination of break-free lines. */
  lemma {:induction false} SplitTerminated(lines: seq<string>)
    requires forall i :: 0 <= i < |lines| ==> NoLineBreaks(lines[i])
    ensures SplitLines(Terminated(lines)) == lines
    decreases |lines|
  {
    if lines != [] {
      var l := lines[0];
      var rest := Terminated(lines[1..]);
      assert Seqs.Map((l: string) => l + "\n", lines)[1..] == Seqs.Map((l: string) => l + "\n", lines[1..]);
      var s := Terminated(lines);
      assert s == l + "\n" + rest;
      FirstBreakAt(l, "\n" + rest);
      assert s[|l|] == '\n';
      assert s[..|l|] == l;
      assert s[|l| + 1..] == rest;
      SplitTerminated(lines[1..]);
    }
  }

  /** A break-free text is one line, and the empty text none. */
  lemma SplitLinesUnbroken(s: string)
    requires NoLineBreaks(s)
    ensures SplitLines(s) == (if s == [] then [] else [s])
  {
  }

  /** A line ends at `\n`, at `\r\n`, or at a `\r` not followed by `\n`;
      the break is dropped and splitting continues after it. */
  lemma SplitLinesStep(a: string, b: string, rest: string)
    requires NoLineBreaks(a)
    requires b == "\n" || b == "\r\n" || (b == "\r" && (rest == [] || rest[0] != '\n'))
    ensures SplitLines(a + b + rest) == [a] + SplitLines(rest)
  {
    var s := a + b + rest;
    assert s == a + (b + rest);
    FirstBreakAt(a, b + rest);
    assert s[..|a|] == a;
    assert s[|a|] == b[0];
    if b == "\r\n" {
      assert s[|a| + 1] == '\n';
      assert s[|a| + 2..] == rest;
    } else {
      assert s[|a| + 1..] == rest;
    }
  }

  /** The first break of `a + b` is at `|a|` when `a` has none and `b`
      starts with one. */
  lemma {:induction false} FirstBreakAt(a: string, b: string)
    requires NoLineBreaks(a)
    requires |b| > 0 && IsLineBreak(b[0])
    ensures FirstBreak(a + b) == |a|
    decreases |a|
  {
    if a != [] {
      assert (a + b)[1..] == a[1..] + b;
      FirstBreakAt(a[1..], b);
    }
  }
}
