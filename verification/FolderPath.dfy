/**
 * Code's `folder` parameter (shell/ezil/app-link.js): a lexical normaliser that accepts only folders it can write back.
 */
module FolderPath {
  import opened Options
  import opened Paths

  const MAX_BYTES: nat := 2048
  const MAX_SEGMENTS: nat := 64
  const MAX_SEGMENT_BYTES: nat := 255
  const ROOT: seq<string> := ["workspace"]

  // A script value; a string with a lone surrogate is not a text.
  datatype Value = NoString | IllFormed | Text(s: string)

  datatype FolderError = Empty | Invalid | Control | Backslash | TooLong | Outside

  // --- Byte lengths -------------------------------------------------------------------------------------------------

  function CharBytes(c: char): (n: nat)
    ensures 1 <= n <= 4
  {
    var p := c as int;
    if p < 0x80 then 1 else if p < 0x800 then 2 else if p < 0x10000 then 3 else 4
  }

  function Bytes(s: string): nat {
    if s == "" then 0 else CharBytes(s[0]) + Bytes(s[1..])
  }

  // --- Lexical resolution -------------------------------------------------------------------------------------------

  predicate Blank(segment: string) {
    segment == "" || segment == "."
  }

  // What the loop has after `segments`, from `stack`.
  function Resolve(segments: seq<string>, stack: seq<string>, floor: nat): Result<seq<string>, FolderError> {
    if segments == [] then Ok(stack)
    else
      var segment, rest := segments[0], segments[1..];
      if Blank(segment) then Resolve(rest, stack, floor)
      else if segment == ".." then
        if |stack| <= floor then Err(Outside) else Resolve(rest, stack[..|stack| - 1], floor)
      else if Bytes(segment) > MAX_SEGMENT_BYTES then Err(TooLong)
      else Resolve(rest, stack + [segment], floor)
  }

  // Another way to resolve: from the right, each ".." takes away the nearest name to its left. `up` counts those left.
  datatype Resolved = Resolved(names: seq<string>, up: nat)

  function FromRight(segments: seq<string>): Resolved {
    if segments == [] then Resolved([], 0)
    else
      var segment, rest := segments[0], FromRight(segments[1..]);
      if Blank(segment) then rest
      else if segment == ".." then Resolved(rest.names, rest.up + 1)
      else if rest.up > 0 then Resolved(rest.names, rest.up - 1)
      else Resolved([segment] + rest.names, 0)
  }

  predicate Short(segments: seq<string>) {
    forall segment :: segment in segments ==> Bytes(segment) <= MAX_SEGMENT_BYTES
  }

  // The segments before the first one that is too long.
  function UpToLong(segments: seq<string>): seq<string> {
    if segments == [] || Bytes(segments[0]) > MAX_SEGMENT_BYTES then [] else [segments[0]] + UpToLong(segments[1..])
  }

  lemma {:induction false} UpToLongIsAll(segments: seq<string>)
    ensures UpToLong(segments) == segments <==> Short(segments)
    ensures |UpToLong(segments)| < |segments| <==> !Short(segments)
  {
    if segments == [] {
    } else {
      UpToLongIsAll(segments[1..]);
      assert segments == [segments[0]] + segments[1..];
    }
  }

  /**
   * The loop keeps what resolution from the right keeps. It goes outside exactly when the segments before the first
   * long one climb above the floor, and is too long exactly when they do not and there is a long one.
   */
  lemma ResolveIsFromRight(segments: seq<string>, stack: seq<string>, floor: nat)
    requires floor <= |stack|
    ensures var r := FromRight(UpToLong(segments));
      Resolve(segments, stack, floor)
      == if r.up > |stack| - floor then Err(Outside)
         else if Short(segments) then Ok(stack[..|stack| - r.up] + r.names)
         else Err(TooLong)
  {
    ResolveIsExpected(segments, stack, floor);
  }

  // What a stack becomes, resolved from the right.
  function Expected(r: Resolved, short: bool, stack: seq<string>, floor: nat): Result<seq<string>, FolderError>
    requires floor <= |stack|
  {
    if r.up > |stack| - floor then Err(Outside) else if short then Ok(stack[..|stack| - r.up] + r.names)
        else Err(TooLong)
  }

  lemma ExpectedAfterPop(r: Resolved, short: bool, stack: seq<string>, floor: nat)
    requires floor < |stack|
    ensures Expected(Resolved(r.names, r.up + 1), short, stack, floor)
        == Expected(r, short, stack[..|stack| - 1], floor)
  {
    if r.up < |stack| {
      assert stack[..|stack| - 1][..|stack| - 1 - r.up] == stack[..|stack| - (r.up + 1)];
    }
  }

  lemma ExpectedAfterPush(r: Resolved, short: bool, stack: seq<string>, floor: nat, segment: string)
    requires floor <= |stack|
    ensures Expected(if r.up > 0 then Resolved(r.names, r.up - 1)
        else Resolved([segment] + r.names, 0), short, stack, floor)
         == Expected(r, short, stack + [segment], floor)
  {
    var pushed := stack + [segment];
    if r.up == 0 {
      assert pushed[..|pushed|] + r.names == stack[..|stack|] + ([segment] + r.names);
    } else if r.up <= |pushed| {
      assert pushed[..|pushed| - r.up] == stack[..|stack| - (r.up - 1)];
    }
  }

  lemma {:induction false} ResolveIsExpected(segments: seq<string>, stack: seq<string>, floor: nat)
    requires floor <= |stack|
    ensures Resolve(segments, stack, floor) == Expected(FromRight(UpToLong(segments)), Short(segments), stack, floor)
  {
    if segments == [] {
      assert stack[..|stack|] + [] == stack;
    } else if Bytes(segments[0]) > MAX_SEGMENT_BYTES {
      UpToLongIsAll(segments);
      LongIsAName(segments[0]);
    } else {
      var segment, rest := segments[0], segments[1..];
      var r := FromRight(UpToLong(rest));
      ShortRest(segments);
      hide UpToLong, Bytes, Short, FromRight, Expected;
      if Blank(segment) {
        ResolveIsExpected(rest, stack, floor);
      } else if segment == ".." {
        if |stack| > floor {
          ResolveIsExpected(rest, stack[..|stack| - 1], floor);
          ExpectedAfterPop(r, Short(rest), stack, floor);
        } else {
          NothingToPop(r, Short(rest), stack, floor);
        }
      } else {
        ResolveIsExpected(rest, stack + [segment], floor);
        ExpectedAfterPush(r, Short(rest), stack, floor, segment);
      }
    }
  }

  lemma NothingToPop(r: Resolved, short: bool, stack: seq<string>, floor: nat)
    requires |stack| == floor
    ensures Expected(Resolved(r.names, r.up + 1), short, stack, floor) == Err(Outside)
  {
  }

  // One step from the right, when the first segment is not too long.
  lemma ShortRest(segments: seq<string>)
    requires segments != [] && Bytes(segments[0]) <= MAX_SEGMENT_BYTES
    ensures Short(segments) <==> Short(segments[1..])
    ensures var segment, r := segments[0], FromRight(UpToLong(segments[1..]));
      FromRight(UpToLong(segments))
      == if Blank(segment) then r
         else if segment == ".." then Resolved(r.names, r.up + 1)
         else if r.up > 0 then Resolved(r.names, r.up - 1) else Resolved([segment] + r.names, 0)
  {
    hide FromRight, Bytes, Short;
    ShortOfRest(segments);
    FromRightOfFirst(segments[0], UpToLong(segments[1..]));
  }

  lemma FromRightOfFirst(segment: string, rest: seq<string>)
    ensures var r := FromRight(rest);
      FromRight([segment] + rest)
      == if Blank(segment) then r
         else if segment == ".." then Resolved(r.names, r.up + 1)
         else if r.up > 0 then Resolved(r.names, r.up - 1) else Resolved([segment] + r.names, 0)
  {
    assert ([segment] + rest)[1..] == rest;
    hide Blank;
  }

  lemma ShortOfRest(segments: seq<string>)
    requires segments != []
    ensures Short(segments) <==> Bytes(segments[0]) <= MAX_SEGMENT_BYTES && Short(segments[1..])
  {
    hide Bytes;
    assert segments == [segments[0]] + segments[1..];
  }

  lemma LongIsAName(segment: string)
    requires Bytes(segment) > MAX_SEGMENT_BYTES
    ensures !Blank(segment) && segment != ".."
  {
    assert ".."[1..] == "." && "."[1..] == "";
    assert Bytes("") == 0 && Bytes(".") <= 4 && Bytes("..") <= 8;
  }

  // --- The parser ---------------------------------------------------------------------------------------------------

  predicate IsControl(c: char) {
    c as int < 0x20 || c as int == 0x7f
  }

  // The first character that is refused, if there is one.
  function BadChar(s: string): Option<FolderError> {
    if s == "" then None
    else if IsControl(s[0]) then Some(Control)
    else if s[0] == '\\' then Some(Backslash)
    else BadChar(s[1..])
  }

  predicate Absolute(s: string) {
    s != "" && s[0] == '/'
  }

  function Folder(stack: seq<string>): string {
    if stack == [] then "/" else "/" + Joined(stack)
  }

  function ParseText(s: string): Result<string, FolderError> {
    if s == "" then Err(Empty)
    else if BadChar(s).Some? then Err(BadChar(s).value)
    else if Bytes(s) > MAX_BYTES then Err(TooLong)
    else
      match Resolve(Segments(s), if Absolute(s) then [] else ROOT, if Absolute(s) then 0 else |ROOT|)
      case Err(why) => Err(why)
      case Ok(stack) =>
        if |stack| > MAX_SEGMENTS || Bytes(Folder(stack)) > MAX_BYTES then Err(TooLong) else Ok(Folder(stack))
  }

  function Parse(value: Value): Result<string, FolderError> {
    match value
    case NoString => Err(Empty)
    case IllFormed => Err(Invalid)
    case Text(s) => ParseText(s)
  }

  method ParseFolder(value: Value) returns (r: Result<string, FolderError>)
    ensures r == Parse(value)
  {
    if value.NoString? || value == Text("") { return Err(Empty); }
    if value.IllFormed? { return Err(Invalid); }
    var s := value.s;
    for i := 0 to |s|
      invariant BadChar(s) == BadChar(s[i..])
    {
      if IsControl(s[i]) { return Err(Control); }
      if s[i] == '\\' { return Err(Backslash); }
      assert s[i..][1..] == s[i + 1..];
    }
    assert s[|s|..] == "";
    if Bytes(s) > MAX_BYTES { return Err(TooLong); }
    var absolute := s[0] == '/';
    var floor := if absolute then 0 else |ROOT|;
    var stack := if absolute then [] else ROOT;
    var parts := Segments(s);
    ghost var start := stack;
    for i := 0 to |parts|
      invariant Resolve(parts, start, floor) == Resolve(parts[i..], stack, floor)
    {
      assert parts[i..][1..] == parts[i + 1..];
      var segment := parts[i];
      if segment == "" || segment == "." {
        continue;
      }
      if segment == ".." {
        if |stack| <= floor { return Err(Outside); }
        stack := stack[..|stack| - 1];
        continue;
      }
      if Bytes(segment) > MAX_SEGMENT_BYTES { return Err(TooLong); }
      stack := stack + [segment];
    }
    if |stack| > MAX_SEGMENTS { return Err(TooLong); }
    var folder := if |stack| == 0 then "/" else "/" + Joined(stack);
    if Bytes(folder) > MAX_BYTES { return Err(TooLong); }
    return Ok(folder);
  }

  // --- What is accepted ---------------------------------------------------------------------------------------------

  predicate Plain(segment: string) {
    segment != "" && segment != "." && segment != ".." && '/' !in segment && Bytes(segment) <= MAX_SEGMENT_BYTES
    && BadChar(segment).None?
  }

  // An absolute path of plain segments, within the limits.
  ghost predicate NormalForm(folder: string) {
    exists stack: seq<string> :: folder == Folder(stack) && (forall i :: 0 <= i < |stack| ==> Plain(stack[i]))
      && |stack| <= MAX_SEGMENTS && Bytes(folder) <= MAX_BYTES
  }

  lemma {:induction false} BadCharIff(s: string)
    ensures BadChar(s).None? <==> forall c :: c in s ==> !IsControl(c) && c != '\\'
  {
    if s == "" {
    } else {
      BadCharIff(s[1..]);
      assert s == [s[0]] + s[1..];
    }
  }

  lemma {:induction false} ResolvedArePlain(segments: seq<string>, stack: seq<string>, floor: nat)
    requires forall i :: 0 <= i < |segments| ==> '/' !in segments[i] && BadChar(segments[i]).None?
    requires forall i :: 0 <= i < |stack| ==> Plain(stack[i])
    requires Resolve(segments, stack, floor).Ok?
    ensures var r := Resolve(segments, stack, floor).value; forall i :: 0 <= i < |r| ==> Plain(r[i])
  {
    if segments == [] {
    } else {
      var segment, rest := segments[0], segments[1..];
      if Blank(segment) {
        ResolvedArePlain(rest, stack, floor);
      } else if segment == ".." {
        ResolvedArePlain(rest, stack[..|stack| - 1], floor);
      } else {
        ResolvedArePlain(rest, stack + [segment], floor);
      }
    }
  }

  lemma {:induction false} FloorStays(segments: seq<string>, stack: seq<string>, floor: nat)
    requires floor <= |stack| && Resolve(segments, stack, floor).Ok?
    ensures stack[..floor] <= Resolve(segments, stack, floor).value
  {
    if segments == [] {
    } else {
      var segment, rest := segments[0], segments[1..];
      if Blank(segment) {
        FloorStays(rest, stack, floor);
      } else if segment == ".." {
        FloorStays(rest, stack[..|stack| - 1], floor);
        assert stack[..|stack| - 1][..floor] == stack[..floor];
      } else {
        FloorStays(rest, stack + [segment], floor);
        assert (stack + [segment])[..floor] == stack[..floor];
      }
    }
  }

  predicate Letters(s: string) {
    forall i :: 0 <= i < |s| ==> 'a' <= s[i] <= 'z'
  }

  lemma LettersArePlain(s: string)
    requires s != "" && |s| <= MAX_SEGMENT_BYTES && Letters(s)
    ensures Plain(s)
  {
    AsciiBytes(s);
    BadCharIff(s);
  }

  lemma RootIsPlain()
    ensures forall i :: 0 <= i < |ROOT| ==> Plain(ROOT[i])
  {
    hide Plain, BadChar, Bytes;
    assert Letters("workspace");
    LettersArePlain("workspace");
  }

  lemma {:induction false} AsciiBytes(s: string)
    requires forall i :: 0 <= i < |s| ==> s[i] as int < 0x80
    ensures Bytes(s) == |s|
  {
    if s == "" {
    } else {
      AsciiBytes(s[1..]);
    }
  }

  // The stack that an accepted text resolves to.
  lemma CleanSegments(s: string)
    requires ParseText(s).Ok?
    ensures forall i :: 0 <= i < |Segments(s)| ==> '/' !in Segments(s)[i] && BadChar(Segments(s)[i]).None?
  {
    hide Segments, Resolve, Folder, Bytes;
    SegmentsAreClean(s);
    BadCharIff(s);
    forall i | 0 <= i < |Segments(s)| ensures '/' !in Segments(s)[i] && BadChar(Segments(s)[i]).None? {
      BadCharIff(Segments(s)[i]);
    }
  }

  lemma AcceptedStack(s: string) returns (stack: seq<string>)
    requires ParseText(s).Ok?
    ensures Resolve(Segments(s), if Absolute(s) then [] else ROOT, if Absolute(s) then 0 else |ROOT|) == Ok(stack)
    ensures ParseText(s).value == Folder(stack) && |stack| <= MAX_SEGMENTS && Bytes(Folder(stack)) <= MAX_BYTES
    ensures forall i :: 0 <= i < |stack| ==> Plain(stack[i])
    ensures !Absolute(s) ==> ROOT <= stack
  {
    var floor := if Absolute(s) then 0 else |ROOT|;
    var start := if Absolute(s) then [] else ROOT;
    stack := Resolve(Segments(s), start, floor).value;
    CleanSegments(s);
    hide Plain, BadChar, Bytes, Segments, Resolve, Folder;
    RootIsPlain();
    ResolvedArePlain(Segments(s), start, floor);
    FloorStays(Segments(s), start, floor);
    assert ROOT[..|ROOT|] == ROOT;
  }

  lemma StackIsNormal(stack: seq<string>)
    requires |stack| <= MAX_SEGMENTS && Bytes(Folder(stack)) <= MAX_BYTES
        && forall i :: 0 <= i < |stack| ==> Plain(stack[i])
    ensures NormalForm(Folder(stack)) && forall i :: 0 <= i < |stack| ==> '/' !in stack[i]
  {
  }

  lemma DeeperIsInside(outer: seq<string>, stack: seq<string>)
    requires outer != [] && outer <= stack && forall i :: 0 <= i < |stack| ==> '/' !in stack[i]
    ensures Segments(Folder(outer)) <= Segments(Folder(stack))
  {
    hide Segments, Folder;
    forall i | 0 <= i < |outer| ensures '/' !in outer[i] { assert outer[i] == stack[i]; }
    FolderSegments(outer);
    FolderSegments(stack);
  }

  /** An accepted folder is in normal form; one given relative to the workspace is the workspace or inside it. */
  lemma AcceptedIsNormal(value: Value)
    requires Parse(value).Ok?
    ensures NormalForm(Parse(value).value)
    ensures !Absolute(value.s) ==> Segments(Folder(ROOT)) <= Segments(Parse(value).value)
    ensures Folder(ROOT) == "/workspace"
  {
    assert Folder(ROOT) == "/" + "workspace" == "/workspace";
    var stack := AcceptedStack(value.s);
    hide Segments, ParseText, Resolve, Bytes, BadChar, Folder, NormalForm, Plain;
    StackIsNormal(stack);
    if !Absolute(value.s) { DeeperIsInside(ROOT, stack); }
  }

  lemma FolderSegments(stack: seq<string>)
    requires forall i :: 0 <= i < |stack| ==> '/' !in stack[i]
    ensures Segments(Folder(stack)) == if stack == [] then ["", ""] else [""] + stack
  {
    if stack == [] {
      assert Folder(stack)[1..] == "";
    } else {
      SegmentsOfJoined(stack);
      assert Folder(stack)[1..] == Joined(stack);
    }
  }

  lemma {:induction false} PlainResolve(stack: seq<string>, before: seq<string>)
    requires forall i :: 0 <= i < |stack| ==> Plain(stack[i])
    ensures Resolve(stack, before, 0) == Ok(before + stack)
  {
    if stack == [] {
      assert before + stack == before;
    } else {
      PlainResolve(stack[1..], before + [stack[0]]);
      assert before + [stack[0]] + stack[1..] == before + stack;
    }
  }

  lemma PlainText(stack: seq<string>)
    requires forall i :: 0 <= i < |stack| ==> Plain(stack[i])
    ensures BadChar(Folder(stack)).None?
  {
    BadCharIff(Folder(stack));
    if stack != [] {
      JoinedChars(stack);
      forall c | c in Folder(stack) ensures !IsControl(c) && c != '\\' {
        if c != '/' {
          assert c in Joined(stack);
          var i :| 0 <= i < |stack| && c in stack[i];
          BadCharIff(stack[i]);
        }
      }
    }
  }

  /** A folder in normal form parses to itself, so parsing what was accepted changes nothing. */
  lemma NormalFormIsFixed(folder: string)
    requires NormalForm(folder)
    ensures ParseText(folder) == Ok(folder)
  {
    var stack :| folder == Folder(stack) && (forall i :: 0 <= i < |stack| ==> Plain(stack[i]))
      && |stack| <= MAX_SEGMENTS && Bytes(folder) <= MAX_BYTES;
    PlainText(stack);
    FolderSegments(stack);
    PlainResolve(stack, []);
    assert [] + stack == stack;
    if stack == [] {
      assert ["", ""][1..] == [""] && [""][1..] == [];
      assert Resolve(["", ""], [], 0) == Resolve([""], [], 0) == Ok([]);
    } else {
      assert ([""] + stack)[1..] == stack;
      assert Resolve([""] + stack, [], 0) == Resolve(stack, [], 0);
    }
  }

  // What the loop starts from, and must stay above.
  function StartOf(s: string): seq<string> {
    if Absolute(s) then [] else ROOT
  }

  // A text the loop gets to see.
  predicate Readable(s: string) {
    s != "" && BadChar(s).None? && Bytes(s) <= MAX_BYTES
  }

  /**
   * Exactly which values are accepted, by resolution from the right, and what they become: texts without a refused
   * character or a long name, within the limits before and after, that do not climb above `/` or, when relative, above
   * the workspace. A text is outside exactly when it climbs before any long name.
   */
  lemma AcceptedExactly(value: Value, folder: string)
    ensures Parse(value) == Ok(folder) <==>
      && value.Text? && Readable(value.s) && Short(Segments(value.s))
      && var r := FromRight(Segments(value.s));
      && r.up == 0 && |StartOf(value.s) + r.names| <= MAX_SEGMENTS
      && folder == Folder(StartOf(value.s) + r.names) && Bytes(folder) <= MAX_BYTES
    ensures Parse(value) == Err(Outside) <==>
      value.Text? && Readable(value.s) && FromRight(UpToLong(Segments(value.s))).up > 0
  {
    if value.Text? {
      var start := StartOf(value.s);
      ResolveIsFromRight(Segments(value.s), start, |start|);
      UpToLongIsAll(Segments(value.s));
      assert start[..|start|] == start;
      BadCharsAreTwo(value.s);
    }
  }

  lemma {:induction false} BadCharsAreTwo(s: string)
    ensures BadChar(s) != Some(Outside)
  {
    if s == "" {
    } else {
      BadCharsAreTwo(s[1..]);
    }
  }
}
