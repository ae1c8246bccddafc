/**
 * What a link says, condition by condition and with the names and limits it is written with (shell/ezil/app-link.js),
 * and how the shell spells one (shell/ezil/app-history.js).
 */
module AppLinkRules {
  import opened Options
  import opened Paths
  import opened Percent
  import opened AppLink
  import F = FolderPath

  // --- Query values -------------------------------------------------------------------------------------------------

  // The pair at `i` is the first with this key.
  predicate FirstPair(pairs: seq<string>, key: string, i: nat) {
    i < |pairs| && Decode(NameOf(pairs[i])) == key && forall j :: 0 <= j < i ==> Decode(NameOf(pairs[j])) != key
  }

  ghost predicate Twice(pairs: seq<string>, key: string) {
    exists i, j :: 0 <= i < j < |pairs| && Decode(NameOf(pairs[i])) == key && Decode(NameOf(pairs[j])) == key
  }

  lemma {:induction false} RawsAre(pairs: seq<string>, key: string)
    ensures Raws(pairs, key) == [] <==> forall i :: 0 <= i < |pairs| ==> Decode(NameOf(pairs[i])) != key
    ensures forall i: nat :: FirstPair(pairs, key, i) ==>
              Raws(pairs, key) != [] && Raws(pairs, key)[0] == ValueOf(pairs[i])
    ensures |Raws(pairs, key)| > 1 <==> Twice(pairs, key)
  {
    if pairs == [] {
    } else {
      RawsAre(pairs[1..], key);
      RawsStep(pairs, key);
    }
  }

  lemma RawsStep(pairs: seq<string>, key: string)
    requires pairs != []
    requires var rest := pairs[1..];
      && (Raws(rest, key) == [] <==> forall i :: 0 <= i < |rest| ==> Decode(NameOf(rest[i])) != key)
      && (forall i: nat :: FirstPair(rest, key, i) ==> Raws(rest, key) != [] && Raws(rest, key)[0] == ValueOf(rest[i]))
      && (|Raws(rest, key)| > 1 <==> Twice(rest, key))
    ensures Raws(pairs, key) == [] <==> forall i :: 0 <= i < |pairs| ==> Decode(NameOf(pairs[i])) != key
    ensures forall i: nat :: FirstPair(pairs, key, i) ==>
              Raws(pairs, key) != [] && Raws(pairs, key)[0] == ValueOf(pairs[i])
    ensures |Raws(pairs, key)| > 1 <==> Twice(pairs, key)
  {
    hide Decode, NameOf, ValueOf;
    var rest := pairs[1..];
    SomePair(pairs, key);
    FirstOfRest(pairs, key);
    TwiceInRest(pairs, key);
    hide Twice, FirstPair;
  }

  lemma SomePair(pairs: seq<string>, key: string)
    requires pairs != []
    ensures (forall i :: 0 <= i < |pairs| ==> Decode(NameOf(pairs[i])) != key)
       <==> (&& Decode(NameOf(pairs[0])) != key
             && forall i :: 0 <= i < |pairs[1..]| ==> Decode(NameOf(pairs[1..][i])) != key)
  {
    hide Decode, NameOf;
    assert forall j :: 1 <= j < |pairs| ==> pairs[j] == pairs[1..][j - 1];
    assert forall j :: 0 <= j < |pairs[1..]| ==> pairs[j + 1] == pairs[1..][j];
  }

  lemma FirstOfRest(pairs: seq<string>, key: string)
    requires pairs != []
    ensures forall i: nat :: FirstPair(pairs, key, i) ==>
              if Decode(NameOf(pairs[0])) == key then i == 0
              else i > 0 && FirstPair(pairs[1..], key, i - 1) && pairs[i] == pairs[1..][i - 1]
  {
    hide Decode, NameOf;
    var rest := pairs[1..];
    forall i: nat | FirstPair(pairs, key, i) && i > 0
      ensures FirstPair(rest, key, i - 1)
    {
      assert forall j :: 0 <= j < i ==> rest[j] == pairs[j + 1];
    }
  }

  lemma TwiceInRest(pairs: seq<string>, key: string)
    requires pairs != []
    ensures Twice(pairs, key) <==>
              || Twice(pairs[1..], key)
              || (Decode(NameOf(pairs[0])) == key
                  && exists i :: 0 <= i < |pairs[1..]| && Decode(NameOf(pairs[1..][i])) == key)
  {
    hide Decode, NameOf;
    var rest := pairs[1..];
    if Twice(pairs, key) {
      var i, j :| 0 <= i < j < |pairs| && Decode(NameOf(pairs[i])) == key && Decode(NameOf(pairs[j])) == key;
      assert rest[j - 1] == pairs[j];
      if i > 0 {
        assert rest[i - 1] == pairs[i];
      }
    }
    if Twice(rest, key) {
      var i, j :| 0 <= i < j < |rest| && Decode(NameOf(rest[i])) == key && Decode(NameOf(rest[j])) == key;
      assert pairs[i + 1] == rest[i] && pairs[j + 1] == rest[j];
    }
    if i :| 0 <= i < |rest| && Decode(NameOf(rest[i])) == key {
      assert pairs[i + 1] == rest[i];
    }
  }

  lemma {:induction false} FirstPairExists(pairs: seq<string>, key: string, i: nat) returns (first: nat)
    requires i < |pairs| && Decode(NameOf(pairs[i])) == key
    ensures FirstPair(pairs, key, first)
  {
    if j :| 0 <= j < i && Decode(NameOf(pairs[j])) == key {
      first := FirstPairExists(pairs, key, j);
    } else {
      first := i;
    }
  }

  /** A key's value is that of the first pair whose decoded name it is; it is ambiguous with a second one. */
  lemma ValueIsFirst(pairs: seq<string>, key: string)
    ensures match Get(pairs, key)
            case None => forall i :: 0 <= i < |pairs| ==> Decode(NameOf(pairs[i])) != key
            case Some(value) => exists i: nat :: FirstPair(pairs, key, i) && value == Decode(ValueOf(pairs[i]))
    ensures Repeated(pairs, key) <==> Twice(pairs, key)
  {
    RawsAre(pairs, key);
    if Raws(pairs, key) != [] {
      var i :| 0 <= i < |pairs| && Decode(NameOf(pairs[i])) == key;
      var first := FirstPairExists(pairs, key, i);
      hide Decode, NameOf, ValueOf;
    }
  }

  // --- Which app ----------------------------------------------------------------------------------------------------

  predicate ReadKey(key: string) {
    key in {"app", "settings", "tab", "project", "repo", "path", "folder"}
  }

  predicate Tab(s: string) {
    s in {"account", "usage", "billing", "computers", "system", "appearance", "about", "troubleshoot"}
  }

  // Small letters, digits and hyphens, by their codes.
  predicate PathName(s: string) {
    s != "" && forall c :: c in s ==> 97 <= c as int < 123 || 48 <= c as int < 58 || c as int == 45
  }

  predicate AppPath(pathname: string) {
    pathname == "/app" || (|pathname| >= 5 && pathname[..5] == "/app/")
  }

  // The path or the query asks for this app, `browser` being another name of `desktop`.
  predicate Asks(loc: Location, id: string) {
    var app, settings, tab := Get(loc.pairs, "app"), Get(loc.pairs, "settings"), Get(loc.pairs, "tab");
    if AppPath(loc.pathname) then
      && |loc.pathname| > 5 && PathName(loc.pathname[5..])
      && id == (if loc.pathname[5..] == "browser" then "desktop" else loc.pathname[5..])
      && app.None?
      && !(id == "settings" && tab.Some? && settings.Some? && tab.value != settings.value)
    else if app.Some? && app.value != "" then id == if app.value == "browser" then "desktop" else app.value
    else id == "settings" && settings.Some? && Tab(settings.value)
  }

  // The tab it asks settings for: the path form looks at `tab` first, the older form at `settings`.
  function TabAsked(loc: Location): Option<string> {
    var settings, tab := Get(loc.pairs, "settings"), Get(loc.pairs, "tab");
    if AppPath(loc.pathname) then (if tab.Some? then tab else settings)
    else if settings.Some? then settings else tab
  }

  /**
   * A location is a link exactly when none of the seven keys is given twice and it asks for an app that may open; the
   * link is of that app, with the tab asked for if it is one of the eight, and only Code is told anything else.
   */
  lemma LinkExactly(loc: Location, apps: set<string>)
    ensures match ParseAppLink(loc, apps)
            case Some(link) =>
              && (forall key :: ReadKey(key) ==> !Twice(loc.pairs, key))
              && Asks(loc, link.id) && link.id in apps && link.id != ""
              && (forall t :: link.initialTab == Some(t) <==>
                    link.id == "settings" && TabAsked(loc) == Some(t) && Tab(t))
              && link.code == (if link.id == "code" then ParseCode(loc.pairs) else NOTHING)
            case None =>
              || (exists key :: ReadKey(key) && Twice(loc.pairs, key))
              || forall id :: Asks(loc, id) ==> id !in apps || id == ""
  {
    hide Decode, NameOf, ValueOf, Get, ParseCode, Raws;
    AmbiguousIsTwice(loc.pairs);
    if AppPath(loc.pathname) {
      NamedIs(loc.pathname);
    }
    hide Ambiguous, Twice, ReadKey, Named, PathName;
    assert UnderApp(loc.pathname) <==> AppPath(loc.pathname);
  }

  lemma AmbiguousIsTwice(pairs: seq<string>)
    ensures Ambiguous(pairs) <==> exists key :: ReadKey(key) && Twice(pairs, key)
  {
    hide Decode, NameOf, ValueOf, Twice, Repeated;
    if Ambiguous(pairs) {
      var i :| 0 <= i < |KEYS| && Repeated(pairs, KEYS[i]);
      ValueIsFirst(pairs, KEYS[i]);
      assert ReadKey(KEYS[i]);
    }
    if key :| ReadKey(key) && Twice(pairs, key) {
      ValueIsFirst(pairs, key);
      assert key in KEYS;
    }
  }

  lemma NamedIs(pathname: string)
    requires AppPath(pathname)
    ensures match Named(pathname)
            case Some(name) => |pathname| > 5 && name == pathname[5..] && PathName(name)
            case None => |pathname| > 5 ==> !PathName(pathname[5..])
  {
    if |pathname| >= 5 {
      PathNameIs(pathname[5..]);
      assert "/app/" <= pathname;
    }
  }

  lemma PathNameIs(s: string)
    ensures AppId(s) <==> PathName(s)
  {
    if AppId(s) {
      forall c | c in s
        ensures IdChar(c)
      {
        var i :| 0 <= i < |s| && s[i] == c;
      }
    }
    if PathName(s) {
      assert forall i :: 0 <= i < |s| ==> s[i] in s;
    }
  }

  // --- What Code is told --------------------------------------------------------------------------------------------

  // A digit or a small letter up to f, by its code.
  predicate SmallHex(c: char) {
    48 <= c as int < 58 || 97 <= c as int < 103
  }

  // Eight, four, four, four and twelve of them, with hyphens between.
  predicate Canonical(id: string) {
    && |id| == 36 && id[8] == id[13] == id[18] == id[23] == '-'
    && forall i :: 0 <= i < 36 && i !in {8, 13, 18, 23} ==> SmallHex(id[i])
  }

  // Letters, digits, and `.`, `_` or `-`, by their codes; and not a step to here or above.
  predicate GoodName(segment: string) {
    && segment != "" && segment != "." && segment != ".."
    && forall c :: c in segment ==>
         || 65 <= c as int < 91 || 97 <= c as int < 123 || 48 <= c as int < 58
         || c as int == 46 || c as int == 95 || c as int == 45
  }

  // An escaped slash or backslash, which would be a second way to write a separator.
  ghost predicate Escaped(raw: string) {
    exists i: nat :: EscapedAt(raw, i)
  }

  predicate EscapedAt(raw: string, i: nat) {
    i + 3 <= |raw| && raw[i..i + 3] in {"%2f", "%2F", "%5c", "%5C"}
  }

  ghost predicate FirstBadName(segments: seq<string>, i: nat) {
    i < |segments| && !GoodName(segments[i]) && forall j :: 0 <= j < i ==> GoodName(segments[j])
  }

  // Why a path into a repository is refused, the first of these that holds.
  ghost predicate Refused(value: string, raw: string, why: PathError) {
    match why
    case EmptyPath => value == ""
    case EncodedSeparator => value != "" && Escaped(raw)
    case PathTooLong => value != "" && !Escaped(raw) && |Utf8All(value)| > 255
    case AbsolutePath => Short(value, raw) && value[0] as int == 47
    case BackslashInPath => Short(value, raw) && value[0] as int != 47 && exists c :: c in value && c as int == 92
    case ControlInPath =>
      && Short(value, raw) && value[0] as int != 47 && (forall c :: c in value ==> c as int != 92)
      && exists c :: c in value && (c as int < 32 || c as int == 127)
    case DotSegment => Spelled(value, raw) && exists i: nat ::
        FirstBadName(Segments(value), i) && Segments(value)[i] in {".", ".."}
    case BadSegment => Spelled(value, raw) && exists i: nat ::
        FirstBadName(Segments(value), i) && Segments(value)[i] !in {".", ".."}
  }

  ghost predicate Short(value: string, raw: string) {
    value != "" && !Escaped(raw) && |Utf8All(value)| <= 255
  }

  ghost predicate Spelled(value: string, raw: string) {
    && Short(value, raw) && value[0] as int != 47
    && forall c :: c in value ==> c as int >= 32 && c as int != 127 && c as int != 92
  }

  ghost predicate GoodPath(value: string, raw: string) {
    Spelled(value, raw) && forall segment :: segment in Segments(value) ==> GoodName(segment)
  }

  lemma {:induction false} PathBytes(s: string)
    ensures F.Bytes(s) == |Utf8All(s)|
  {
    if s == "" {
    } else {
      PathBytes(s[1..]);
    }
  }

  lemma EscapedIs(raw: string)
    ensures HidesSeparator(raw) <==> Escaped(raw)
  {
    if HidesSeparator(raw) {
      var i :| 0 <= i < |raw| - 2 && raw[i] == '%'
        && ((raw[i + 1] == '2' && raw[i + 2] in "fF") || (raw[i + 1] == '5' && raw[i + 2] in "cC"));
      assert raw[i..i + 3] == [raw[i], raw[i + 1], raw[i + 2]];
      assert EscapedAt(raw, i);
    }
    if i: nat :| EscapedAt(raw, i) {
      var here := raw[i..i + 3];
      assert raw[i] == here[0] && raw[i + 1] == here[1] && raw[i + 2] == here[2];
    }
  }

  lemma GoodNameIs(segment: string)
    ensures GoodName(segment) <==> segment !in {".", ".."} && GoodSegment(segment)
  {
    if GoodSegment(segment) {
      forall c | c in segment
        ensures SegmentChar(c)
      {
        var i :| 0 <= i < |segment| && segment[i] == c;
      }
    }
    if GoodName(segment) {
      assert forall i :: 0 <= i < |segment| ==> segment[i] in segment;
    }
  }

  lemma {:induction false} SegmentProblemIs(segments: seq<string>)
    ensures SegmentProblem(segments).None? <==> forall i :: 0 <= i < |segments| ==> GoodName(segments[i])
    ensures forall i: nat :: FirstBadName(segments, i) ==>
              SegmentProblem(segments) == Some(if segments[i] in {".", ".."} then DotSegment else BadSegment)
  {
    if segments == [] {
    } else {
      GoodNameIs(segments[0]);
      SegmentProblemIs(segments[1..]);
      hide GoodName, GoodSegment;
      forall i: nat | FirstBadName(segments, i) && i > 0
        ensures FirstBadName(segments[1..], i - 1) && segments[1..][i - 1] == segments[i]
      {
      }
      assert forall i :: 1 <= i < |segments| ==> segments[1..][i - 1] == segments[i];
    }
  }

  lemma {:induction false} SomeBadName(segments: seq<string>, i: nat) returns (first: nat)
    requires i < |segments| && !GoodName(segments[i])
    ensures FirstBadName(segments, first)
  {
    if j :| 0 <= j < i && !GoodName(segments[j]) {
      first := SomeBadName(segments, j);
    } else {
      first := i;
    }
  }

  /** A path is good or refused, and refused for the first reason that holds. */
  lemma PathExactly(value: string, raw: string)
    ensures PathProblem(value, raw).None? <==> GoodPath(value, raw)
    ensures forall why :: PathProblem(value, raw) == Some(why) <==> Refused(value, raw, why)
  {
    EscapedIs(raw);
    PathBytes(value);
    var segments := Segments(value);
    SegmentProblemIs(segments);
    hide F.Bytes, Utf8All, Segments, SegmentProblem, HidesSeparator, Escaped, GoodName;
    if i :| 0 <= i < |segments| && !GoodName(segments[i]) {
      var first := SomeBadName(segments, i);
      assert segments[i] in segments;
    } else {
      assert forall segment :: segment in segments ==> exists i :: 0 <= i < |segments| && segments[i] == segment;
    }
    CharsOf(value);
  }

  lemma CharsOf(value: string)
    ensures (exists i :: 0 <= i < |value| && F.IsControl(value[i]))
       <==> exists c :: c in value && (c as int < 32 || c as int == 127)
  {
    if i :| 0 <= i < |value| && F.IsControl(value[i]) {
      assert value[i] in value;
    }
    if c :| c in value && (c as int < 32 || c as int == 127) {
      var i :| 0 <= i < |value| && value[i] == c;
      assert F.IsControl(value[i]);
    }
  }

  lemma CanonicalIs(id: string)
    ensures Uuid(id) <==> Canonical(id)
  {
  }

  // What is wrong with the ids of a repository, the first of these that holds.
  function IdProblem(project: Option<string>, repo: Option<string>, path: Option<string>): Option<ProjectError> {
    if project.None? then (if repo.None? && path.None? then None else Some(ProjectMissing))
    else if repo.None? then Some(RepoMissing)
    else if !Canonical(project.value) then Some(ProjectInvalid)
    else if !Canonical(repo.value) then Some(RepoInvalid)
    else None
  }

  // The path, if one is given and good.
  ghost predicate PathGiven(path: Option<string>, raw: Option<string>, given: Option<string>) {
    given == if path.Some? && raw.Some? && GoodPath(path.value, raw.value) then path else None
  }

  // Both ids are there and canonical.
  predicate Whole(pairs: seq<string>) {
    var project, repo := Get(pairs, "project"), Get(pairs, "repo");
    project.Some? && repo.Some? && Canonical(project.value) && Canonical(repo.value)
  }

  ghost predicate RepositoryTold(pairs: seq<string>, code: CodeParams) {
    var project, repo, path := Get(pairs, "project"), Get(pairs, "repo"), Get(pairs, "path");
    && code.projectRejected == IdProblem(project, repo, path)
    && code.project.Some? == Whole(pairs)
    && (Whole(pairs) ==>
          && code.project.value.projectId == project.value && code.project.value.repoId == repo.value
          && PathGiven(path, Raw(pairs, "path"), code.project.value.path))
    && (forall why :: code.pathRejected == Some(why) <==>
          && Whole(pairs) && path.Some? && Raw(pairs, "path").Some?
          && Refused(path.value, Raw(pairs, "path").value, why))
  }

  ghost predicate FolderTold(pairs: seq<string>, code: CodeParams) {
    var folder := Get(pairs, "folder");
    && (forall f :: code.folder == Some(f) <==> !Whole(pairs) && folder.Some? && F.Parse(F.Text(folder.value)) == Ok(f))
    && (forall why :: code.folderRejected == Some(why) <==>
          && folder.Some?
          && if Whole(pairs) then why == WithRepository
             else why.Lexical? && F.Parse(F.Text(folder.value)) == Err(why.why))
  }

  lemma ProjectExactly(pairs: seq<string>)
    ensures RepositoryTold(pairs, ParseProject(pairs))
    ensures ParseProject(pairs).folder.None? && ParseProject(pairs).folderRejected.None?
  {
    hide Canonical, Uuid, Raws, Decode, PathProblem, GoodPath, Refused;
    var project, repo, path := Get(pairs, "project"), Get(pairs, "repo"), Get(pairs, "path");
    if project.Some? {
      CanonicalIs(project.value);
    }
    if repo.Some? {
      CanonicalIs(repo.value);
    }
    if path.Some? {
      PathExactly(path.value, Raw(pairs, "path").value);
    }
    hide Get, Raw;
  }

  /**
   * Code is told a repository exactly when both ids are there and canonical, with the path if that is good, and of each
   * refusal why. It is told a folder exactly when one is given beside no repository and accepted.
   */
  lemma CodeExactly(pairs: seq<string>)
    ensures RepositoryTold(pairs, ParseCode(pairs))
    ensures FolderTold(pairs, ParseCode(pairs))
  {
    hide Canonical, GoodPath, Refused, IdProblem, F.ParseText, ParseProject, Get, Raw;
    ProjectExactly(pairs);
    var code := ParseProject(pairs);
    SameRepository(pairs, code, ParseCode(pairs));
    hide PathGiven;
  }

  lemma SameRepository(pairs: seq<string>, code: CodeParams, more: CodeParams)
    requires RepositoryTold(pairs, code) && more == code.(folder := more.folder, folderRejected := more.folderRejected)
    ensures RepositoryTold(pairs, more)
  {
    hide Canonical, GoodPath, Refused, IdProblem, Get, Raw, PathGiven;
  }

  // --- How a link is spelled ----------------------------------------------------------------------------------------

  // A pair for a value, if there is one to write.
  function Spelling(key: string, value: Option<string>): seq<string> {
    if value.None? || value.value == "" then [] else [Encode(key) + "=" + Encode(value.value)]
  }

  /**
   * A link is written under its app's name: settings with the tab, Code with its repository and then its folder, each
   * value that is there and not empty, in this order.
   */
  lemma SpelledExactly(link: Link)
    ensures var loc, code := AppUrl(link.id, LinkParams(link)), link.code;
      && loc.pathname == "/app/" + Encode(link.id)
      && loc.pairs
         == (if link.id == "settings" then Spelling("tab", link.initialTab)
             else if link.id == "code" then
               (if code.project.Some? then
                  Spelling("project", Some(code.project.value.projectId))
                  + Spelling("repo", Some(code.project.value.repoId))
                  + Spelling("path", code.project.value.path)
                else [])
               + Spelling("folder", code.folder)
             else [])
  {
    hide Encode;
    if link.id == "settings" {
      PrintedGiven("tab", link.initialTab);
    } else if link.id == "code" {
      var code := link.code;
      PrintedGiven("folder", code.folder);
      if code.project.Some? {
        var p := code.project.value;
        PrintedGiven("path", p.path);
        PrintedGiven("project", Some(p.projectId));
        PrintedGiven("repo", Some(p.repoId));
        PrintedInParts(Given("project", Some(p.projectId)), Given("repo", Some(p.repoId)));
        PrintedInParts([("project", p.projectId), ("repo", p.repoId)], Given("path", p.path));
        PrintedInParts([("project", p.projectId), ("repo", p.repoId)] + Given("path", p.path),
                       Given("folder", code.folder));
        assert Given("project", Some(p.projectId)) + Given("repo", Some(p.repoId))
            == [("project", p.projectId), ("repo", p.repoId)];
      } else {
        assert [] + Given("folder", code.folder) == Given("folder", code.folder);
      }
    }
  }

  lemma PrintedGiven(key: string, value: Option<string>)
    ensures Printed(Given(key, value)) == Spelling(key, value)
  {
    hide Encode;
    assert Printed([]) == [];
  }

  lemma {:induction false} PrintedInParts(a: Entries, b: Entries)
    ensures Printed(a + b) == Printed(a) + Printed(b)
  {
    if a == [] {
      assert a + b == b;
    } else {
      assert (a + b)[1..] == a[1..] + b && (a + b)[0] == a[0];
      PrintedInParts(a[1..], b);
      hide Pair;
    }
  }

  // The pairs of a query that are not empty and not of these keys, as they are and in their order.
  function Besides(pairs: seq<string>, keys: set<string>): seq<string> {
    if pairs == [] then []
    else
      var n := |pairs| - 1;
      Besides(pairs[..n], keys)
      + if pairs[n] == "" || Decode(NameOf(pairs[n])) in keys then [] else [pairs[n]]
  }

  lemma {:induction false} BesidesFirst(pairs: seq<string>, keys: set<string>)
    requires pairs != []
    ensures Besides(pairs, keys)
         == (if pairs[0] == "" || Decode(NameOf(pairs[0])) in keys then [] else [pairs[0]]) + Besides(pairs[1..], keys)
  {
    hide Decode, NameOf;
    var first := if pairs[0] == "" || Decode(NameOf(pairs[0])) in keys then [] else [pairs[0]];
    if |pairs| == 1 {
      assert pairs[..0] == [] && pairs[1..] == [];
      assert [] + first == first + [];
    } else {
      var n := |pairs| - 1;
      var middle := Besides(pairs[..n][1..], keys);
      BesidesFirst(pairs[..n], keys);
      BesidesLast(pairs[1..], keys);
      assert pairs[..n][1..] == pairs[1..][..n - 1] && pairs[1..][n - 1] == pairs[n] && pairs[..n][0] == pairs[0];
      BesidesLast(pairs, keys);
      var last := if pairs[n] == "" || Decode(NameOf(pairs[n])) in keys then [] else [pairs[n]];
      hide Besides;
      Regroup(first, middle, last);
    }
  }

  lemma BesidesLast(pairs: seq<string>, keys: set<string>)
    requires pairs != []
    ensures var n := |pairs| - 1;
      Besides(pairs, keys)
      == Besides(pairs[..n], keys) + if pairs[n] == "" || Decode(NameOf(pairs[n])) in keys then [] else [pairs[n]]
  {
    hide Decode, NameOf;
  }

  lemma {:induction false} KeptAre(pairs: seq<string>, tabbed: bool)
    ensures Kept(pairs, tabbed) == Besides(pairs, if tabbed then {"app", "settings", "tab"} else {"app", "settings"})
  {
    hide Decode, NameOf;
    if pairs == [] {
    } else {
      BesidesFirst(pairs, if tabbed then {"app", "settings", "tab"} else {"app", "settings"});
      KeptAre(pairs[1..], tabbed);
    }
  }

  /**
   * The canonical spelling keeps every pair of the query byte for byte, but for the ones that select an app, and for
   * `tab` if the link has one, which is then written first.
   */
  lemma CanonicalExactly(loc: Location, link: Link, search: Option<seq<string>>)
    ensures var canonical := CanonicalUrl(loc, link, search);
        var pairs := if search.Some? then search.value else loc.pairs;
      && canonical.pathname == "/app/" + Encode(link.id)
      && canonical.pairs
         == if link.id == "settings" && link.initialTab.Some? then
              [Encode("tab") + "=" + Encode(link.initialTab.value)] + Besides(pairs, {"app", "settings", "tab"})
            else Besides(pairs, {"app", "settings"})
  {
    KeptAre(QueryToKeep(loc, search), Tabbed(link));
    hide Encode, Besides, Kept;
  }

  /** Consuming keys drops exactly their pairs, and empty ones. */
  lemma {:induction false} ConsumedExactly(pairs: seq<string>, keys: set<string>)
    ensures WithoutKeys(pairs, keys) == Besides(pairs, keys)
  {
    hide Decode, NameOf;
    if pairs == [] {
    } else {
      BesidesFirst(pairs, keys);
      ConsumedExactly(pairs[1..], keys);
    }
  }
}
