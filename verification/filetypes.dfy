/** File-type decisions made on file names: the upload allow-list of the
    minute-writer endpoint (case-insensitive), the playground's choice of
    content type (case-sensitive), and the suffix `pathlib` gives the
    temporary copy of an upload. */
module FileTypes {
  import opened Outcomes
  import opened Text

  /** The audio extensions both sides list, in lower case. */
  const AudioExtensions: seq<string> := [".mp3", ".wav", ".m4a"]

  const AudioContentType := "audio/mpeg"
  const DefaultContentType := "application/octet-stream"

  /** The endpoint's check `filename.lower().endswith((".mp3", ".wav", ".m4a"))`. */
  function UploadAccepted(filename: string): (accepted: bool)
    ensures accepted <==>
      |filename| >= 4 && Lower(filename[|filename| - 4..]) in AudioExtensions
  {
    LoweredEnding(filename);
    EndsWithAny(Lower(filename), AudioExtensions)
  }

  /** Every audio extension is four characters long, so the lower-cased name
      ends with one exactly when its last four characters, lower-cased, are
      one. */
  lemma LoweredEnding(filename: string)
    ensures EndsWithAny(Lower(filename), AudioExtensions) <==>
      |filename| >= 4 && Lower(filename[|filename| - 4..]) in AudioExtensions
  {
    var lowered := Lower(filename);
    if |filename| >= 4 {
      LowerSlice(filename, |filename| - 4, |filename|);
      assert filename[|filename| - 4..|filename|] == filename[|filename| - 4..];
      assert lowered[|lowered| - 4..] == Lower(filename[|filename| - 4..]);
    }
    if EndsWithAny(lowered, AudioExtensions) {
      var i :| 0 <= i < |AudioExtensions| && EndsWith(lowered, AudioExtensions[i]);
      assert lowered[|lowered| - 4..] == AudioExtensions[i];
    }
    if |lowered| >= 4 && lowered[|lowered| - 4..] in AudioExtensions {
      var i :| 0 <= i < |AudioExtensions| && AudioExtensions[i] == lowered[|lowered| - 4..];
      assert EndsWith(lowered, AudioExtensions[i]);
    }
  }

  /** The playground's `get_content_type`: `filename.endswith(AUDIO_EXTENSIONS)`,
      with no case folding. */
  function ContentType(filename: string): (r: string)
    ensures r == AudioContentType || r == DefaultContentType
    ensures r == AudioContentType <==>
      |filename| >= 4 && filename[|filename| - 4..] in AudioExtensions
  {
    assert EndsWithAny(filename, AudioExtensions) <==>
      |filename| >= 4 && filename[|filename| - 4..] in AudioExtensions;
    if EndsWithAny(filename, AudioExtensions) then AudioContentType else DefaultContentType
  }

  predicate HasAsciiUpper(s: string) {
    exists i :: 0 <= i < |s| && IsAsciiUpper(s[i])
  }

  /** Every name the playground labels as audio is accepted by the endpoint. */
  lemma AudioContentTypeIsAccepted(filename: string)
    requires ContentType(filename) == AudioContentType
    ensures UploadAccepted(filename)
  {
    var tail := filename[|filename| - 4..];
    assert Lower(tail) == tail;
  }

  /** The two checks disagree exactly on the accepted names whose extension
      has an upper-case letter: the endpoint accepts them, while the
      playground sends them as `application/octet-stream`. */
  lemma CaseSensitivityGap(filename: string)
    requires UploadAccepted(filename)
    ensures ContentType(filename) == DefaultContentType <==>
      HasAsciiUpper(filename[|filename| - 4..])
  {
    var tail := filename[|filename| - 4..];
    if HasAsciiUpper(tail) {
      var i :| 0 <= i < |tail| && IsAsciiUpper(tail[i]);
      assert forall e :: e in AudioExtensions ==> !IsAsciiUpper(e[i]);
      assert tail !in AudioExtensions;
    } else {
      assert Lower(tail) == tail;
    }
  }

  /** A concrete instance of the gap. */
  lemma UpperCaseExtensionExample()
    ensures UploadAccepted("TALK.MP3")
    ensures ContentType("TALK.MP3") == DefaultContentType
  {
    assert Lower("TALK.MP3"[4..]) == ".mp3";
    assert "TALK.MP3"[4..] !in AudioExtensions;
  }

  /** `PurePosixPath(p).name`: the last component of `p`, where empty and
      `.` components (repeated or trailing slashes, `a/.`) do not count. */
  function PathName(p: string): (name: string)
    ensures '/' !in name
    decreases |p|
  {
    match LastIndexOf(p, '/')
    case None => if p == "." then "" else p
    case Some(k) =>
      var last := p[k + 1..];
      if last == "" || last == "." then PathName(p[..k]) else last
  }

  /** A path without a slash is its own name, unless it is `.`. */
  lemma PathNameSingle(b: string)
    requires '/' !in b && b != "."
    ensures PathName(b) == b
  {
  }

  /** The name is the component after the last slash, when that component
      is neither empty nor `.`. */
  lemma PathNameLast(a: string, b: string)
    requires '/' !in b && b != "" && b != "."
    ensures PathName(a + "/" + b) == b
  {
    var p := a + "/" + b;
    LastIndexOfEnding(p, '/', |a|);
    assert p[|a| + 1..] == b;
  }

  /** A trailing slash does not change the name. */
  lemma PathNameTrailingSlash(p: string)
    ensures PathName(p + "/") == PathName(p)
  {
    var q := p + "/";
    LastIndexOfEnding(q, '/', |p|);
    assert q[..|p|] == p;
  }

  /** Nor does a trailing `/.` component. */
  lemma PathNameTrailingDot(p: string)
    ensures PathName(p + "/.") == PathName(p)
  {
    var q := p + "/.";
    LastIndexOfEnding(q, '/', |p|);
    assert q[..|p|] == p;
    assert q[|p| + 1..] == ".";
  }

  /** `PurePosixPath(p).suffix`, as in Python 3.12: from the last `.` of the
      name, provided that dot is neither the first nor the last character. */
  function PathSuffix(p: string): (suffix: string)
    ensures suffix != "" <==>
      exists i :: 0 < i < |PathName(p)| - 1 && PathName(p)[i] == '.'
        && forall j :: i < j < |PathName(p)| ==> PathName(p)[j] != '.'
    ensures suffix != "" ==>
      && |suffix| >= 2 && suffix[0] == '.' && '.' !in suffix[1..]
      && |suffix| < |PathName(p)| && EndsWith(PathName(p), suffix)
  {
    var name := PathName(p);
    match LastIndexOf(name, '.')
    case None => ""
    case Some(i) =>
      if 0 < i < |name| - 1 then
        name[i..]
      else
        ""
  }

  /** The name ends in a dot and three characters that are neither dots
      nor slashes, as every accepted name does. */
  predicate DottedEnding(filename: string) {
    && |filename| >= 4 && filename[|filename| - 4] == '.'
    && forall j :: |filename| - 3 <= j < |filename| ==> filename[j] != '/' && filename[j] != '.'
  }

  lemma AcceptedShape(filename: string)
    requires UploadAccepted(filename)
    ensures DottedEnding(filename)
  {
    var n := |filename|;
    var lowered := Lower(filename[n - 4..]);
    assert lowered[0] == '.';
    assert LowerChar(filename[n - 4]) == lowered[0];
    forall j | n - 3 <= j < n
      ensures filename[j] != '/' && filename[j] != '.'
    {
      assert LowerChar(filename[j]) == lowered[j - (n - 4)];
    }
  }

  /** The name of such a path is everything after its last slash. */
  lemma NameOfDotted(filename: string)
    requires DottedEnding(filename)
    ensures var n := |filename|; var name := PathName(filename);
      && |name| >= 4 && name[|name| - 4..] == filename[n - 4..]
      && (|name| >= 5 <==> n >= 5 && filename[n - 5] != '/')
  {
    var n := |filename|;
    var slash := LastIndexOf(filename, '/');
    if slash.None? {
      assert filename != ".";
      assert PathName(filename) == filename;
    } else {
      var k := slash.value;
      assert filename[k] == '/';
      assert k < n - 4;
      var comp := filename[k + 1..];
      assert |comp| >= 4;
      assert PathName(filename) == comp;
      assert comp[|comp| - 4..] == filename[n - 4..];
      if n >= 5 && filename[n - 5] == '/' {
        assert k == n - 5;
      }
    }
  }

  /** The suffix of such a path is its last four characters when something
      precedes the dot in the last component, and empty otherwise. */
  lemma SuffixOfDotted(filename: string)
    requires DottedEnding(filename)
    ensures var n := |filename|;
      PathSuffix(filename) == (if n >= 5 && filename[n - 5] != '/' then filename[n - 4..] else "")
  {
    NameOfDotted(filename);
    var name := PathName(filename);
    DottedNameShape(name, filename);
    LastIndexOfEnding(name, '.', |name| - 4);
  }

  /** A name that ends like a dotted path keeps its ending. */
  lemma DottedNameShape(name: string, filename: string)
    requires DottedEnding(filename)
    requires |name| >= 4 && name[|name| - 4..] == filename[|filename| - 4..]
    ensures name[|name| - 4] == '.'
    ensures forall j :: |name| - 4 < j < |name| ==> name[j] != '.'
  {
    var m := |name|;
    var n := |filename|;
    forall j | m - 4 <= j < m
      ensures name[j] == filename[j - m + n]
    {
      assert name[j] == name[m - 4..][j - (m - 4)];
    }
  }

  /** The temporary copy of an accepted upload gets the upload's own
      extension, in its original case, unless nothing precedes the dot in
      the last path component (`.mp3`, `dir/.wav`), when it gets none. */
  lemma TempSuffixOfAcceptedUpload(filename: string)
    requires UploadAccepted(filename)
    ensures var n := |filename|;
      PathSuffix(filename) == (if n >= 5 && filename[n - 5] != '/' then filename[n - 4..] else "")
  {
    AcceptedShape(filename);
    SuffixOfDotted(filename);
  }
}
