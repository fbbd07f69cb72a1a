/**
 * The version probe in `ServiceInner::new` (src/service/service.rs): the output of
 * `<core> version` is scanned line by line; each trimmed line that starts with
 * "sing-box version" stores the rest as the core version and notifies, and each line
 * starting with "Tags:" only has its comma-separated tags logged.
 */
module CoreVersion {
  import opened Strings
  import opened ServiceStatus

  const VersionPrefix := "sing-box version"
  const TagsPrefix := "Tags:"

  predicate IsVersionLine(line: string) {
    StartsWith(Trim(line), VersionPrefix)
  }

  /** The version a version line announces: what follows the prefix, trimmed. */
  function VersionIn(line: string): string {
    Trim(TrimStartMatches(Trim(line), VersionPrefix))
  }

  /** The tags a "Tags:" line lists, each trimmed. */
  function TagsIn(line: string): seq<string> {
    TrimEach(Split(Trim(TrimStartMatches(Trim(line), TagsPrefix)), ','))
  }

  function TrimEach(pieces: seq<string>): (r: seq<string>)
    ensures |r| == |pieces| && forall i :: 0 <= i < |r| ==> r[i] == Trim(pieces[i])
  {
    if pieces == [] then [] else [Trim(pieces[0])] + TrimEach(pieces[1..])
  }

  /** The core version after scanning `lines`: the last version line wins, and `current` stays when there is none. */
  function LastVersion(lines: seq<string>, current: string): string
    decreases |lines|
  {
    if lines == [] then current
    else if IsVersionLine(lines[|lines| - 1]) then VersionIn(lines[|lines| - 1])
    else LastVersion(lines[..|lines| - 1], current)
  }

  /** How many version lines `lines` holds: one notification each. */
  function VersionLines(lines: seq<string>): nat
    decreases |lines|
  {
    if lines == [] then 0
    else VersionLines(lines[..|lines| - 1]) + (if IsVersionLine(lines[|lines| - 1]) then 1 else 0)
  }

  /** The version is the one on the last version line, whatever comes after it. */
  lemma {:induction false} LastVersionIsLastLine(lines: seq<string>, current: string, i: nat)
    requires i < |lines| && IsVersionLine(lines[i])
    requires forall j :: i < j < |lines| ==> !IsVersionLine(lines[j])
    ensures LastVersion(lines, current) == VersionIn(lines[i])
    decreases |lines|
  {
    if i < |lines| - 1 {
      var front := lines[..|lines| - 1];
      assert front[i] == lines[i];
      forall j | i < j < |front| ensures !IsVersionLine(front[j]) {
        assert front[j] == lines[j];
      }
      LastVersionIsLastLine(front, current, i);
    }
  }

  /** Without any version line the stored version is left alone, and nobody is notified. */
  lemma {:induction false} NoVersionLineKeeps(lines: seq<string>, current: string)
    requires forall j :: 0 <= j < |lines| ==> !IsVersionLine(lines[j])
    ensures LastVersion(lines, current) == current
    ensures VersionLines(lines) == 0
    decreases |lines|
  {
    if lines != [] {
      var front := lines[..|lines| - 1];
      forall j | 0 <= j < |front| ensures !IsVersionLine(front[j]) {
        assert front[j] == lines[j];
      }
      NoVersionLineKeeps(front, current);
    }
  }

  predicate Trimmed(s: string) {
    s != [] && !IsWhitespace(s[0]) && !IsWhitespace(s[|s| - 1])
  }

  lemma TrimmedFixed(s: string)
    requires Trimmed(s)
    ensures Trim(s) == s
  {
  }

  lemma StripOnce(p: string, rest: string)
    requires p != [] && !StartsWith(rest, p)
    ensures TrimStartMatches(p + rest, p) == rest
  {
    var s := p + rest;
    assert s[..|p|] == p;
    assert s[|p|..] == rest;
  }

  lemma LeadingSpaceTrimmed(v: string)
    requires Trimmed(v)
    ensures Trim([' '] + v) == v
  {
    var s := [' '] + v;
    assert s[1..] == v;
    assert TrimStart(s) == TrimStart(v);
    TrimmedFixed(v);
  }

  /** A padded line "<p> <v>" holds `p` at its trimmed front, and `v` is what follows it, trimmed. */
  lemma PrefixedValue(pad: string, p: string, v: string)
    requires Trimmed(v) && p != [] && !IsWhitespace(p[0])
    requires forall k :: 0 <= k < |pad| ==> IsWhitespace(pad[k])
    ensures StartsWith(Trim(pad + p + " " + v), p)
    ensures Trim(TrimStartMatches(Trim(pad + p + " " + v), p)) == v
  {
    var body := p + ([' '] + v);
    assert pad + p + " " + v == pad + body;
    PrefixSpaceValue(p, v);
    TrimPadded(pad, body);
    LeadingSpaceTrimmed(v);
  }

  /** "<p> <v>" is trimmed, starts with `p`, and loses exactly `p` to the prefix strip. */
  lemma PrefixSpaceValue(p: string, v: string)
    requires Trimmed(v) && p != [] && !IsWhitespace(p[0])
    ensures var body := p + ([' '] + v);
      Trimmed(body) && StartsWith(body, p) && TrimStartMatches(body, p) == [' '] + v
  {
    var rest := [' '] + v;
    var body := p + rest;
    assert body[0] == p[0];
    assert body[|body| - 1] == v[|v| - 1];
    assert body[..|p|] == p;
    assert !StartsWith(rest, p) by { assert rest[0] == ' '; }
    StripOnce(p, rest);
  }

  lemma TrimPadded(pad: string, body: string)
    requires Trimmed(body) && forall k :: 0 <= k < |pad| ==> IsWhitespace(pad[k])
    ensures Trim(pad + body) == body
  {
    PaddingTrimmed(pad, body);
    TrimmedFixed(body);
  }

  /** The line "sing-box version <v>", surrounded by any whitespace, announces exactly `v`. */
  lemma VersionOfLine(pad: string, v: string)
    requires Trimmed(v) && forall k :: 0 <= k < |pad| ==> IsWhitespace(pad[k])
    ensures IsVersionLine(pad + VersionPrefix + " " + v)
    ensures VersionIn(pad + VersionPrefix + " " + v) == v
  {
    PrefixedValue(pad, VersionPrefix, v);
  }

  lemma {:induction false} PaddingTrimmed(pad: string, body: string)
    requires Trimmed(body) && forall k :: 0 <= k < |pad| ==> IsWhitespace(pad[k])
    ensures Trim(pad + body) == Trim(body)
    decreases |pad|
  {
    if pad != [] {
      assert (pad + body)[1..] == pad[1..] + body;
      PaddingTrimmed(pad[1..], body);
    }
  }

  /** One more line for the scan: it sets the version and counts iff it is a version line. */
  lemma Step(lines: seq<string>, i: nat, current: string)
    requires i < |lines|
    ensures LastVersion(lines[..i + 1], current)
      == if IsVersionLine(lines[i]) then VersionIn(lines[i]) else LastVersion(lines[..i], current)
    ensures VersionLines(lines[..i + 1]) == VersionLines(lines[..i]) + if IsVersionLine(lines[i]) then 1 else 0
  {
    assert lines[..i + 1][..i] == lines[..i];
    assert lines[..i + 1][i] == lines[i];
  }

  /**
   * The loop over `version_output.split('\n')`: returns the tag lists it logs, and leaves
   * the last announced version in the status with one notification per version line.
   */
  method ParseVersionOutput(status: Status, output: string) returns (tagLists: seq<seq<string>>)
    modifies status
    ensures status.coreVersion == LastVersion(Split(output, '\n'), old(status.coreVersion))
    ensures status.notifications == old(status.notifications) + VersionLines(Split(output, '\n'))
    ensures status.isRunning == old(status.isRunning) && status.runningConfig == old(status.runningConfig)
    ensures status.counters == old(status.counters)
  {
    var lines := Split(output, '\n');
    tagLists := [];
    var i := 0;
    while i < |lines|
      invariant 0 <= i <= |lines|
      invariant status.coreVersion == LastVersion(lines[..i], old(status.coreVersion))
      invariant status.notifications == old(status.notifications) + VersionLines(lines[..i])
      invariant status.isRunning == old(status.isRunning) && status.runningConfig == old(status.runningConfig)
      invariant status.counters == old(status.counters)
    {
      Step(lines, i, old(status.coreVersion));
      var line := Trim(lines[i]);
      assert IsVersionLine(lines[i]) == StartsWith(line, VersionPrefix);
      if StartsWith(line, VersionPrefix) {
        var version := Trim(TrimStartMatches(line, VersionPrefix));
        status.SetCoreVersion(version);
        status.Notify();
      } else if StartsWith(line, TagsPrefix) {
        tagLists := tagLists + [TagsIn(lines[i])];
      }
      i := i + 1;
    }
    assert lines[..i] == lines;
  }
}
