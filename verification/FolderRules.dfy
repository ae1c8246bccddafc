/**
 * Every answer of the folder parser, with the characters and the limits it is written with, in bytes of UTF-8.
 */
module FolderRules {
  import opened Options
  import opened Paths
  import opened Percent
  import opened FolderPath

  // A control character or a backslash, by its code.
  predicate Bad(c: char) {
    c as int < 32 || c as int == 127 || c as int == 92
  }

  predicate FirstBad(s: string, i: nat) {
    i < |s| && Bad(s[i]) && forall j :: 0 <= j < i ==> !Bad(s[j])
  }

  // A text of any character but those, of at most 2048 bytes.
  predicate Legible(value: Value) {
    value.Text? && value.s != "" && |Utf8All(value.s)| <= 2048 && forall c :: c in value.s ==> !Bad(c)
  }

  predicate Long(segment: string) {
    |Utf8All(segment)| > 255
  }

  // What is left of some segments, and how often they climb above where they start: from the right, each ".." takes
  // away the nearest name to its left.
  function Names(segments: seq<string>): seq<string> {
    if segments == [] then []
    else
      var segment, rest := segments[0], segments[1..];
      if segment in {"", ".", ".."} || Climbs(rest) > 0 then Names(rest) else [segment] + Names(rest)
  }

  function Climbs(segments: seq<string>): nat {
    if segments == [] then 0
    else
      var segment, up := segments[0], Climbs(segments[1..]);
      if segment == ".." then up + 1
      else if segment in {"", "."} || up == 0 then up
      else up - 1
  }

  // The segments before the first long one.
  function Leading(segments: seq<string>): seq<string> {
    if segments == [] || Long(segments[0]) then [] else [segments[0]] + Leading(segments[1..])
  }

  // The names of the folder: of an absolute value its own, of any other those under /workspace.
  function Under(s: string): seq<string> {
    (if s != "" && s[0] as int == 47 then [] else ["workspace"]) + Names(Segments(s))
  }

  // The folder is written out with a slash before each name.
  function Written(names: seq<string>): string {
    if names == [] then "" else "/" + names[0] + Written(names[1..])
  }

  function Shown(names: seq<string>): string {
    if names == [] then "/" else Written(names)
  }

  ghost predicate Accepted(value: Value) {
    && Legible(value)
    && var segments, names := Segments(value.s), Under(value.s);
       && (forall segment :: segment in segments ==> !Long(segment))
       && Climbs(segments) == 0 && |names| <= 64 && |Utf8All(Shown(names))| <= 2048
  }

  // --- The parser's own words in these ------------------------------------------------------------------------------

  lemma {:induction false} BytesAre(s: string)
    ensures Bytes(s) == |Utf8All(s)|
  {
    if s == "" {
    } else {
      BytesAre(s[1..]);
    }
  }

  lemma {:induction false} BadCharIs(s: string)
    ensures BadChar(s).None? <==> forall i :: 0 <= i < |s| ==> !Bad(s[i])
    ensures forall i: nat :: FirstBad(s, i) ==> BadChar(s) == Some(if s[i] as int == 92 then Backslash else Control)
  {
    if s == "" {
    } else {
      BadCharIs(s[1..]);
      forall i: nat | FirstBad(s, i) && i > 0
        ensures FirstBad(s[1..], i - 1) && s[1..][i - 1] == s[i]
      {
      }
      assert forall i :: 1 <= i < |s| ==> s[1..][i - 1] == s[i];
    }
  }

  lemma {:induction false} SomeFirst(s: string, i: nat) returns (first: nat)
    requires i < |s| && Bad(s[i])
    ensures FirstBad(s, first)
  {
    if j :| 0 <= j < i && Bad(s[j]) {
      first := SomeFirst(s, j);
    } else {
      first := i;
    }
  }

  lemma {:induction false} FromRightIs(segments: seq<string>)
    ensures FromRight(segments) == Resolved(Names(segments), Climbs(segments))
    ensures Climbs(segments) <= |segments|
  {
    if segments == [] {
    } else {
      FromRightIs(segments[1..]);
    }
  }

  lemma {:induction false} LeadingIs(segments: seq<string>)
    ensures UpToLong(segments) == Leading(segments)
    ensures Short(segments) <==> forall segment :: segment in segments ==> !Long(segment)
  {
    if segments == [] {
    } else {
      BytesAre(segments[0]);
      LeadingIs(segments[1..]);
      assert segments == [segments[0]] + segments[1..];
      hide Bytes, Utf8All;
    }
  }

  lemma {:induction false} FolderIs(names: seq<string>)
    ensures Folder(names) == Shown(names)
  {
    if |names| <= 1 {
      if names != [] {
        assert names[0] + "" == names[0];
        assert "/" + names[0] + Written([]) == "/" + names[0];
      }
    } else {
      FolderIs(names[1..]);
      var more := Joined(names[1..]);
      assert "/" + (names[0] + "/" + more) == ("/" + names[0]) + ("/" + more);
    }
  }

  lemma LegibleIs(value: Value)
    requires value.Text?
    ensures Legible(value) <==> Readable(value.s)
    ensures BadChar(value.s) in {None, Some(Control), Some(Backslash)}
  {
    var s := value.s;
    BytesAre(s);
    BadCharIs(s);
    hide Bytes, Utf8All, BadChar;
    if i :| 0 <= i < |s| && Bad(s[i]) {
      var first := SomeFirst(s, i);
      assert s[i] in s;
    } else {
      forall c | c in s
        ensures !Bad(c)
      {
        var i :| 0 <= i < |s| && s[i] == c;
      }
    }
  }

  /**
   * Which folder a value is, if it is one: a legible text without a long name that never climbs above `/`, or above
   * /workspace when it is relative, of at most 64 names and 2048 bytes.
   */
  lemma AcceptedFolders(value: Value, folder: string)
    ensures Parse(value) == Ok(folder) <==> Accepted(value) && folder == Shown(Under(value.s))
  {
    AcceptedExactly(value, folder);
    if value.Text? {
      LegibleIs(value);
      FromRightIs(Segments(value.s));
      LeadingIs(Segments(value.s));
      FolderIs(Under(value.s));
      BytesAre(Shown(Under(value.s)));
      hide Legible, Readable, Bytes, Utf8All, Names, Climbs, Short, Long, Folder, Shown, Segments, Parse, FromRight;
    }
  }

  /**
   * Why a value is refused: it is no text or an empty one, ill-formed, has a control character or a backslash first, or
   * climbs outside before any long name; a text refused for none of these is too long, or has a long name or too many.
   */
  lemma RefusedFolders(value: Value)
    ensures Parse(value) == Err(Empty) <==> value.NoString? || value == Text("")
    ensures Parse(value) == Err(Invalid) <==> value.IllFormed?
    ensures Parse(value) == Err(Control) <==>
              value.Text? && exists i: nat :: FirstBad(value.s, i) && value.s[i] as int != 92
    ensures Parse(value) == Err(Backslash) <==>
              value.Text? && exists i: nat :: FirstBad(value.s, i) && value.s[i] as int == 92
    ensures Parse(value) == Err(Outside) <==> Legible(value) && Climbs(Leading(Segments(value.s))) > 0
  {
    if value.Text? {
      var s := value.s;
      AcceptedExactly(value, "");
      LegibleIs(value);
      LeadingIs(Segments(s));
      FromRightIs(Leading(Segments(s)));
      hide Legible, Readable, Utf8All, Climbs, Leading, FromRight, UpToLong, Segments, Short;
      RefusedText(s);
      BadCharIs(s);
      if i :| 0 <= i < |s| && Bad(s[i]) {
        var first := SomeFirst(s, i);
      }
    }
  }

  lemma RefusedText(s: string)
    ensures ParseText(s) == Err(Empty) <==> s == ""
    ensures ParseText(s) != Err(Invalid)
    ensures ParseText(s) == Err(Control) <==> BadChar(s) == Some(Control)
    ensures ParseText(s) == Err(Backslash) <==> BadChar(s) == Some(Backslash)
  {
    var start := StartOf(s);
    ResolveIsFromRight(Segments(s), start, |start|);
    LegibleIs(Text(s));
    hide Resolve, Segments, Bytes, FromRight, Legible, Readable, Short;
  }
}
