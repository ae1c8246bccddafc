/**
 * Links undo each other: what a link prints as reads back as the link, and the canonical spelling of a location says
 * what the location said, with one exception.
 */
module AppLinkRoundTrip {
  import opened Options
  import opened Paths
  import opened Percent
  import opened AppLink

  // --- Printed entries ----------------------------------------------------------------------------------------------

  function Chosen(entries: Entries, key: string): seq<string> {
    if entries == [] then []
    else if entries[0].0 == key then [Encode(entries[0].1)] + Chosen(entries[1..], key) else Chosen(entries[1..], key)
  }

  predicate Filled(entries: Entries) {
    forall i :: 0 <= i < |entries| ==> entries[i].1 != ""
  }

  lemma {:induction false} RawsOfPrinted(entries: Entries, key: string)
    requires Filled(entries)
    ensures Raws(Printed(entries), key) == Chosen(entries, key)
  {
    if entries == [] {
    } else {
      PairReadsBack(entries[0].0, entries[0].1);
      RawsOfPrinted(entries[1..], key);
      assert Printed(entries)[0] == Pair(entries[0].0, entries[0].1) && Printed(entries)[1..] == Printed(entries[1..]);
    }
  }

  // Every key once: each is read back, and no other.
  predicate Once(entries: Entries) {
    forall i, j :: 0 <= i < j < |entries| ==> entries[i].0 != entries[j].0
  }

  function ValueIn(entries: Entries, key: string): Option<string> {
    if entries == [] then None else if entries[0].0 == key then Some(entries[0].1) else ValueIn(entries[1..], key)
  }

  lemma {:induction false} ChosenOnce(entries: Entries, key: string)
    requires Once(entries)
    ensures Chosen(entries, key) == if ValueIn(entries, key).Some? then [Encode(ValueIn(entries, key).value)] else []
    ensures ValueIn(entries, key).Some?
        ==> exists i :: 0 <= i < |entries| && entries[i] == (key, ValueIn(entries, key).value)
  {
    if entries == [] {
    } else {
      ChosenOnce(entries[1..], key);
      if ValueIn(entries[1..], key).Some? {
        var i :| 0 <= i < |entries[1..]| && entries[1..][i] == (key, ValueIn(entries[1..], key).value);
        assert entries[i + 1] == entries[1..][i];
      }
    }
  }

  lemma PrintedGet(entries: Entries, key: string)
    requires Filled(entries) && Once(entries)
    ensures Get(Printed(entries), key) == ValueIn(entries, key)
    ensures ValueIn(entries, key).Some? ==> Raw(Printed(entries), key) == Some(Encode(ValueIn(entries, key).value))
    ensures !Repeated(Printed(entries), key)
  {
    RawsOfPrinted(entries, key);
    ChosenOnce(entries, key);
    if ValueIn(entries, key).Some? { DecodeEncode(ValueIn(entries, key).value); }
  }

  // --- Ids and paths ------------------------------------------------------------------------------------------------

  lemma IdPath(id: string)
    requires AppId(id)
    ensures Encode(id) == id && UnderApp("/app/" + id) && Named("/app/" + id) == Some(id)
  {
    EncodeSafe(id);
    assert ("/app/" + id)[5..] == id;
  }

  // A path that names the app, with no second selector in the query.
  lemma PathParses(id: string, pairs: seq<string>, apps: set<string>)
    requires AppId(id) && Alias(id) == id && Get(pairs, "app").None?
    requires id == "settings" ==> Get(pairs, "settings").None?
    ensures ParseAppLink(Location("/app/" + Encode(id), pairs), apps)
         == if Ambiguous(pairs) then None else Finish(id, Get(pairs, "tab"), pairs, apps)
  {
    IdPath(id);
    hide Get, Ambiguous, Encode, Alias, AppId, Named, UnderApp, ParseCode, Section;
  }

  lemma {:induction false} GoodSegments(segments: seq<string>)
    requires SegmentProblem(segments).None?
    ensures forall i :: 0 <= i < |segments| ==> GoodSegment(segments[i])
  {
    if segments == [] {
    } else {
      GoodSegments(segments[1..]);
    }
  }

  // An accepted path is written without any escape, so it is accepted again.
  lemma PathPrints(path: string, raw: string)
    requires PathProblem(path, raw).None?
    ensures path != "" && Encode(path) == path && PathProblem(path, Encode(path)).None?
  {
    GoodSegments(Segments(path));
    JoinedSegments(path);
    JoinedChars(Segments(path));
    forall i | 0 <= i < |path| ensures SegmentChar(path[i]) || path[i] == '/' {
      assert path[i] in Joined(Segments(path));
      if path[i] != '/' {
        var k :| 0 <= k < |Segments(path)| && path[i] in Segments(path)[k];
        assert GoodSegment(Segments(path)[k]);
      }
    }
    EncodeSafe(path);
  }

  // --- Links that were accepted whole -------------------------------------------------------------------------------

  predicate NoRejection(code: CodeParams) {
    code.projectRejected.None? && code.pathRejected.None? && code.folderRejected.None?
  }

  ghost predicate GoodProject(p: Project) {
    Uuid(p.projectId) && Uuid(p.repoId) && (p.path.Some? ==> PathProblem(p.path.value, Encode(p.path.value)).None?)
  }

  ghost predicate Whole(link: Link, apps: set<string>) {
    && link.id in apps
    && (link.initialTab.Some? ==> link.id == "settings" && Section(link.initialTab.value))
    && (link.id != "code" ==> link.code == NOTHING)
    && NoRejection(link.code)
    && (link.code.project.Some? ==> GoodProject(link.code.project.value) && link.code.folder.None?)
    && (link.code.folder.Some? ==> F.NormalForm(link.code.folder.value))
  }

  lemma ParsedCodeIsWhole(pairs: seq<string>)
    requires NoRejection(ParseCode(pairs))
    ensures var c := ParseCode(pairs);
      && (c.project.Some? ==> GoodProject(c.project.value) && c.folder.None?)
      && (c.folder.Some? ==> F.NormalForm(c.folder.value))
  {
    var c, path, folder := ParseCode(pairs), Get(pairs, "path"), Get(pairs, "folder");
    if c.project.Some? && c.project.value.path.Some? { PathPrints(path.value, Raw(pairs, "path").value); }
    if c.folder.Some? { F.AcceptedIsNormal(F.Text(folder.value)); }
  }

  lemma ParsedIsWhole(loc: Location, apps: set<string>)
    requires ParseAppLink(loc, apps).Some? && NoRejection(ParseAppLink(loc, apps).value.code)
    ensures Whole(ParseAppLink(loc, apps).value, apps)
  {
    if ParseAppLink(loc, apps).value.id == "code" { ParsedCodeIsWhole(loc.pairs); }
  }

  // The code parameters of a printed link.
  lemma PrintedCode(link: Link, apps: set<string>)
    requires Whole(link, apps) && link.id == "code"
    ensures Filled(LinkParams(link)) && Once(LinkParams(link))
    ensures ParseCode(Printed(LinkParams(link))) == link.code
    ensures ValueIn(LinkParams(link), "app").None?
  {
    var entries := LinkParams(link);
    PrintedCodeEntries(link, apps);
    var pairs := Printed(entries);
    PrintedGet(entries, "project");
    PrintedGet(entries, "repo");
    PrintedGet(entries, "path");
    PrintedGet(entries, "folder");
    if link.code.folder.Some? { F.NormalFormIsFixed(link.code.folder.value); }
    hide Printed, Get, Raw;
    if link.code.project.Some? {
      var p := link.code.project.value;
      assert ParseProject(pairs) == NOTHING.(project := Some(p));
    }
  }

  lemma TwoEntries(b: (string, string), c: (string, string), key: string)
    ensures ValueIn([b, c], key) == if b.0 == key then Some(b.1) else if c.0 == key then Some(c.1) else None
  {
    assert [b, c][1..] == [c] && [c][1..] == [];
    assert ValueIn([c], key) == if c.0 == key then Some(c.1) else None;
  }

  lemma ThreeEntries(a: (string, string), b: (string, string), c: (string, string), key: string)
    ensures ValueIn([a, b, c], key)
         == if a.0 == key then Some(a.1) else if b.0 == key then Some(b.1) else if c.0 == key then Some(c.1) else None
  {
    assert [a, b, c][1..] == [b, c];
    TwoEntries(b, c, key);
  }

  lemma PrintedCodeEntries(link: Link, apps: set<string>)
    requires Whole(link, apps) && link.id == "code"
    ensures var entries := LinkParams(link);
      && Filled(entries) && Once(entries) && ValueIn(entries, "app").None?
      && ValueIn(entries, "folder") == link.code.folder
      && if link.code.project.Some? then
           var p := link.code.project.value;
           ValueIn(entries, "project") == Some(p.projectId) && ValueIn(entries, "repo") == Some(p.repoId)
               && ValueIn(entries, "path") == p.path
         else ValueIn(entries, "project").None? && ValueIn(entries, "repo").None? && ValueIn(entries, "path").None?
  {
    var entries := LinkParams(link);
    if link.code.project.Some? {
      var p := link.code.project.value;
      if p.path.Some? {
        PathPrints(p.path.value, Encode(p.path.value));
        assert entries == [("project", p.projectId), ("repo", p.repoId), ("path", p.path.value)];
        ThreeEntries(entries[0], entries[1], entries[2], "app");
        ThreeEntries(entries[0], entries[1], entries[2], "path");
        ThreeEntries(entries[0], entries[1], entries[2], "folder");
      } else {
        assert entries == [("project", p.projectId), ("repo", p.repoId)];
        TwoEntries(entries[0], entries[1], "app");
        TwoEntries(entries[0], entries[1], "path");
        TwoEntries(entries[0], entries[1], "folder");
      }
    } else {
      assert entries == Given("folder", link.code.folder);
    }
  }

  lemma NothingRepeated(entries: Entries)
    requires Filled(entries) && Once(entries)
    ensures !Ambiguous(Printed(entries))
  {
    forall i | 0 <= i < |KEYS| ensures !Repeated(Printed(entries), KEYS[i]) { PrintedGet(entries, KEYS[i]); }
  }

  lemma PrintedSettings(link: Link, apps: set<string>)
    requires Whole(link, apps) && link.id == "settings"
    ensures var entries := LinkParams(link);
      && Filled(entries) && Once(entries) && Get(Printed(entries), "app").None?
      && Get(Printed(entries), "tab") == link.initialTab && Get(Printed(entries), "settings").None?
  {
    var entries := LinkParams(link);
    assert Filled(entries) && Once(entries);
    PrintedGet(entries, "app");
    PrintedGet(entries, "tab");
    PrintedGet(entries, "settings");
  }

  /** A link accepted whole prints as a location that parses to it. */
  lemma PrintedLinkParses(link: Link, apps: set<string>)
    requires Registry(apps) && Whole(link, apps)
    ensures ParseAppLink(AppUrl(link.id, LinkParams(link)), apps) == Some(link)
  {
    var entries := LinkParams(link);
    PrintedSelects(link, apps);
    hide Get, Raw, Printed, LinkParams, ParseCode, Ambiguous, NoRejection, Encode, Alias, AppId, ParseAppLink;
    NothingRepeated(entries);
    PathParses(link.id, Printed(entries), apps);
  }

  // What the print of a link says, key by key.
  lemma PrintedSelects(link: Link, apps: set<string>)
    requires Whole(link, apps)
    ensures var entries := LinkParams(link);
      && Filled(entries) && Once(entries) && Get(Printed(entries), "app").None?
      && (link.id == "settings" ==>
            Get(Printed(entries), "tab") == link.initialTab && Get(Printed(entries), "settings").None?)
      && (link.id == "code" ==> ParseCode(Printed(entries)) == link.code)
  {
    var entries := LinkParams(link);
    if link.id == "settings" {
      PrintedSettings(link, apps);
    } else if link.id == "code" {
      PrintedCode(link, apps);
      PrintedGet(entries, "app");
    } else {
      assert entries == [];
      PrintedGet(entries, "app");
    }
    hide Get, Raw, Printed, LinkParams, ParseCode;
  }

  /** Whatever a location said, if nothing in it was refused: writing the link and reading it again changes nothing. */
  lemma ParsePrintParse(loc: Location, apps: set<string>)
    requires Registry(apps) && ParseAppLink(loc, apps).Some? && NoRejection(ParseAppLink(loc, apps).value.code)
    ensures var link := ParseAppLink(loc, apps).value;
      ParseAppLink(AppUrl(link.id, LinkParams(link)), apps) == Some(link)
  {
    ParsedIsWhole(loc, apps);
    PrintedLinkParses(ParseAppLink(loc, apps).value, apps);
  }

  // --- The canonical spelling ---------------------------------------------------------------------------------------

  lemma {:induction false} KeptRaws(pairs: seq<string>, tabbed: bool, key: string)
    requires key != ""
    ensures Raws(Kept(pairs, tabbed), key)
         == if key == "app" || key == "settings" || (tabbed && key == "tab") then [] else Raws(pairs, key)
  {
    if pairs == [] {
    } else {
      KeptRaws(pairs[1..], tabbed, key);
      if pairs[0] == "" { assert Decode("") == ""; }
      var kept := Kept(pairs, tabbed);
      if !(pairs[0] == "" || HasKey(pairs[0], "app") || HasKey(pairs[0], "settings")
          || (tabbed && HasKey(pairs[0], "tab"))) {
        assert kept[0] == pairs[0] && kept[1..] == Kept(pairs[1..], tabbed);
      }
    }
  }

  // The values of the canonical query, key by key.
  lemma CanonicalRaws(loc: Location, link: Link, search: Option<seq<string>>, key: string)
    requires key != ""
    ensures Raws(CanonicalUrl(loc, link, search).pairs, key)
      == if key == "tab" && Tabbed(link) then [Encode(link.initialTab.value)]
         else if key == "app" || key == "settings" then [] else Raws(QueryToKeep(loc, search), key)
  {
    var kept := QueryToKeep(loc, search);
    KeptRaws(kept, Tabbed(link), key);
    if Tabbed(link) {
      var pairs := CanonicalUrl(loc, link, search).pairs;
      PairReadsBack("tab", link.initialTab.value);
      assert pairs[0] == Pair("tab", link.initialTab.value) && pairs[1..] == Kept(kept, true);
    } else {
      assert [] + Kept(kept, false) == Kept(kept, false);
    }
  }

  // A settings location, in the older spelling, whose own tab is unknown and whose `tab` is not.
  predicate TabSurfaces(loc: Location) {
    var settings, tab := Get(loc.pairs, "settings"), Get(loc.pairs, "tab");
    !UnderApp(loc.pathname) && settings.Some? && !Section(settings.value) && tab.Some? && Section(tab.value)
  }

  lemma SameRawsSameGet(a: seq<string>, b: seq<string>, key: string)
    requires Raws(a, key) == Raws(b, key)
    ensures Get(a, key) == Get(b, key) && Repeated(a, key) == Repeated(b, key)
  {
  }

  lemma SameRawsSameCode(a: seq<string>, b: seq<string>)
    requires Raws(a, "project") == Raws(b, "project") && Raws(a, "repo") == Raws(b, "repo")
    requires Raws(a, "path") == Raws(b, "path") && Raws(a, "folder") == Raws(b, "folder")
    ensures ParseCode(a) == ParseCode(b)
  {
    SameRawsSameProject(a, b);
    SameRawsSameGet(a, b, "folder");
    hide Get, Raws, ParseProject, F.ParseText;
  }

  lemma SameRawsSameProject(a: seq<string>, b: seq<string>)
    requires Raws(a, "project") == Raws(b, "project") && Raws(a, "repo") == Raws(b, "repo")
        && Raws(a, "path") == Raws(b, "path")
    ensures ParseProject(a) == ParseProject(b)
  {
    SameRawsSameGet(a, b, "project");
    SameRawsSameGet(a, b, "repo");
    SameRawsSameGet(a, b, "path");
    SameRaw(a, b, "path");
    hide Get, Raw, Raws, Uuid, PathProblem;
  }

  lemma SameRaw(a: seq<string>, b: seq<string>, key: string)
    requires Raws(a, key) == Raws(b, key)
    ensures Raw(a, key) == Raw(b, key)
  {
  }

  lemma CanonicalCode(loc: Location, link: Link, search: Option<seq<string>>)
    requires link.id == "code"
    ensures ParseCode(CanonicalUrl(loc, link, search).pairs) == ParseCode(QueryToKeep(loc, search))
  {
    CanonicalRaws(loc, link, search, "project");
    CanonicalRaws(loc, link, search, "repo");
    CanonicalRaws(loc, link, search, "path");
    CanonicalRaws(loc, link, search, "folder");
    hide Raws, ParseCode, CanonicalUrl, QueryToKeep;
    SameRawsSameCode(CanonicalUrl(loc, link, search).pairs, QueryToKeep(loc, search));
  }

  // No key that the canonical spelling keeps is there twice.
  predicate KeepsClear(link: Link, pairs: seq<string>) {
    forall i :: 0 <= i < |KEYS| && KEYS[i] != "app" && KEYS[i] != "settings" && !(Tabbed(link) && KEYS[i] == "tab") ==>
      !Repeated(pairs, KEYS[i])
  }

  lemma CanonicalIsClear(loc: Location, link: Link, search: Option<seq<string>>)
    ensures Ambiguous(CanonicalUrl(loc, link, search).pairs) <==> !KeepsClear(link, QueryToKeep(loc, search))
  {
    hide CanonicalUrl, Repeated, QueryToKeep, Tabbed;
    forall i | 0 <= i < |KEYS|
      ensures Repeated(CanonicalUrl(loc, link, search).pairs, KEYS[i]) <==> KeepsRepeated(loc, link, search, KEYS[i])
    {
      CanonicalRepeats(loc, link, search, KEYS[i]);
    }
  }

  predicate KeepsRepeated(loc: Location, link: Link, search: Option<seq<string>>, key: string) {
    key != "app" && key != "settings" && !(Tabbed(link) && key == "tab") && Repeated(QueryToKeep(loc, search), key)
  }

  lemma CanonicalRepeats(loc: Location, link: Link, search: Option<seq<string>>, key: string)
    requires key != ""
    ensures Repeated(CanonicalUrl(loc, link, search).pairs, key) <==> KeepsRepeated(loc, link, search, key)
  {
    CanonicalRaws(loc, link, search, key);
    hide CanonicalUrl, Raws, QueryToKeep;
  }

  lemma CanonicalParses(loc: Location, link: Link, search: Option<seq<string>>, apps: set<string>)
    requires Registry(apps) && link.id in apps
    ensures var canonical := CanonicalUrl(loc, link, search);
      ParseAppLink(canonical, apps)
      == if KeepsClear(link, QueryToKeep(loc, search))
          then Finish(link.id, Get(canonical.pairs, "tab"), canonical.pairs, apps) else None
  {
    CanonicalIsClear(loc, link, search);
    CanonicalRaws(loc, link, search, "app");
    CanonicalRaws(loc, link, search, "settings");
    var canonical := CanonicalUrl(loc, link, search);
    assert canonical == Location("/app/" + Encode(link.id), canonical.pairs);
    hide Finish, Raws, Ambiguous, Encode, KeepsClear, CanonicalUrl, ParseAppLink, AppId, Alias;
    PathParses(link.id, canonical.pairs, apps);
  }

  // A location of the settings without a tab of their own.
  lemma UntabbedSettings(loc: Location, apps: set<string>)
    requires ParseAppLink(loc, apps).Some?
    requires var link := ParseAppLink(loc, apps).value; link.id == "settings" && link.initialTab.None?
    ensures var tab := Get(loc.pairs, "tab"); tab.Some? && Section(tab.value) <==> TabSurfaces(loc)
  {
    hide Get, ParseCode, Ambiguous;
  }

  lemma SurfacingTabIsUntabbed(loc: Location, apps: set<string>)
    requires ParseAppLink(loc, apps).Some? && ParseAppLink(loc, apps).value.id == "settings" && TabSurfaces(loc)
    ensures ParseAppLink(loc, apps).value.initialTab.None?
  {
    hide Get, ParseCode, Ambiguous;
  }

  // What the query to keep must say for the canonical spelling to say the link.
  predicate SaysTheRest(link: Link, pairs: seq<string>) {
    var tab := Get(pairs, "tab");
    && KeepsClear(link, pairs)
    && (link.id == "code" ==> ParseCode(pairs) == link.code)
    && (link.id == "settings" && link.initialTab.None? ==> tab.None? || !Section(tab.value))
  }

  /**
   * Whatever query is kept, the canonical spelling parses to the link exactly when that query is clear, says the same
   * to Code, and does not bring a tab to settings that had none.
   */
  lemma CanonicalSaysTheLink(loc: Location, apps: set<string>, search: Option<seq<string>>)
    requires Registry(apps) && ParseAppLink(loc, apps).Some?
    ensures var link := ParseAppLink(loc, apps).value;
      ParseAppLink(CanonicalUrl(loc, link, search), apps) == Some(link) <==> SaysTheRest(link, QueryToKeep(loc, search))
  {
    var link := ParseAppLink(loc, apps).value;
    ParsedLinkIs(loc, apps);
    CanonicalTab(loc, link, search);
    hide CanonicalUrl, Ambiguous, Encode, ParseCode, Section, Get, KeepsClear, QueryToKeep, ParseAppLink;
    CanonicalParses(loc, link, search, apps);
    if link.id == "code" { CanonicalCode(loc, link, search); }
  }

  // What a parsed link is, whatever it was parsed from.
  lemma ParsedLinkIs(loc: Location, apps: set<string>)
    requires ParseAppLink(loc, apps).Some?
    ensures var link := ParseAppLink(loc, apps).value;
      && link.id in apps && (link.id != "code" ==> link.code == NOTHING)
      && (link.initialTab.Some? ==> link.id == "settings" && Section(link.initialTab.value))
      && link.id != ""
  {
    hide ParseCode, Section, Get, Ambiguous, Named, UnderApp, Alias;
  }

  lemma CanonicalTab(loc: Location, link: Link, search: Option<seq<string>>)
    ensures Get(CanonicalUrl(loc, link, search).pairs, "tab")
         == if Tabbed(link) then link.initialTab else Get(QueryToKeep(loc, search), "tab")
  {
    CanonicalRaws(loc, link, search, "tab");
    if link.initialTab.Some? { DecodeEncode(link.initialTab.value); }
    hide CanonicalUrl, Raws, QueryToKeep, Encode, Decode;
  }

  /**
   * The canonical spelling parses to what its location did, exactly unless the location is a settings link in the
   * older spelling that names an unknown tab and also carries a known `tab`.
   */
  lemma CanonicalKeepsTheLink(loc: Location, apps: set<string>)
    requires Registry(apps) && ParseAppLink(loc, apps).Some?
    ensures var link := ParseAppLink(loc, apps).value;
      ParseAppLink(CanonicalUrl(loc, link, None), apps) == Some(link)
      <==> !(link.id == "settings" && TabSurfaces(loc))
  {
    var link := ParseAppLink(loc, apps).value;
    CanonicalSaysTheLink(loc, apps, None);
    if link.id == "settings" && link.initialTab.None? { UntabbedSettings(loc, apps); }
    if link.id == "settings" && TabSurfaces(loc) { SurfacingTabIsUntabbed(loc, apps); }
    assert KeepsClear(link, loc.pairs) && (link.id == "code" ==> ParseCode(loc.pairs) == link.code);
    hide Get, ParseCode, Ambiguous, CanonicalUrl, Section, TabSurfaces, KeepsClear;
  }

  // --- Keys used up -------------------------------------------------------------------------------------------------

  lemma {:induction false} WithoutKeysRaws(pairs: seq<string>, keys: set<string>, key: string)
    requires key != "" && key !in keys
    ensures Raws(WithoutKeys(pairs, keys), key) == Raws(pairs, key)
  {
    if pairs == [] {
    } else {
      WithoutKeysRaws(pairs[1..], keys, key);
      if pairs[0] == "" {
        assert Decode("") == "";
      } else if Decode(NameOf(pairs[0])) !in keys {
        var left := WithoutKeys(pairs, keys);
        assert left[0] == pairs[0] && left[1..] == WithoutKeys(pairs[1..], keys);
      }
    }
  }

  lemma WithoutKeysGets(pairs: seq<string>, keys: set<string>, i: nat)
    requires i < |KEYS| && KEYS[i] !in keys
    ensures Get(WithoutKeys(pairs, keys), KEYS[i]) == Get(pairs, KEYS[i])
    ensures Repeated(WithoutKeys(pairs, keys), KEYS[i]) == Repeated(pairs, KEYS[i])
  {
    WithoutKeysRaws(pairs, keys, KEYS[i]);
    SameRawsSameGet(WithoutKeys(pairs, keys), pairs, KEYS[i]);
  }

  lemma WithoutKeysCode(pairs: seq<string>, keys: set<string>)
    requires forall i :: 0 <= i < |KEYS| ==> KEYS[i] !in keys
    ensures ParseCode(WithoutKeys(pairs, keys)) == ParseCode(pairs)
    ensures Ambiguous(WithoutKeys(pairs, keys)) == Ambiguous(pairs)
  {
    var left := WithoutKeys(pairs, keys);
    assert KEYS[3] == "project" && KEYS[4] == "repo" && KEYS[5] == "path" && KEYS[6] == "folder";
    hide WithoutKeys, ParseCode, Repeated, Raws;
    forall i | 0 <= i < |KEYS|
      ensures Raws(left, KEYS[i]) == Raws(pairs, KEYS[i]) && Repeated(left, KEYS[i]) == Repeated(pairs, KEYS[i])
    {
      WithoutKeysRaws(pairs, keys, KEYS[i]);
      SameRawsSameGet(left, pairs, KEYS[i]);
    }
    SameRawsSameCode(left, pairs);
  }

  /** Dropping keys that no link reads leaves every location's meaning alone. */
  lemma ConsumingKeepsTheLink(loc: Location, keys: set<string>, apps: set<string>)
    requires forall i :: 0 <= i < |KEYS| ==> KEYS[i] !in keys
    ensures ParseAppLink(Location(loc.pathname, WithoutKeys(loc.pairs, keys)), apps) == ParseAppLink(loc, apps)
  {
    WithoutKeysCode(loc.pairs, keys);
    WithoutKeysGets(loc.pairs, keys, 0);
    WithoutKeysGets(loc.pairs, keys, 1);
    WithoutKeysGets(loc.pairs, keys, 2);
    hide Get, ParseCode, Ambiguous, WithoutKeys, ParseAppLink;
    SameAnswers(Location(loc.pathname, WithoutKeys(loc.pairs, keys)), loc, apps);
  }

  // A location is read through the values of three keys, and what it says to Code.
  lemma SameAnswers(a: Location, b: Location, apps: set<string>)
    requires a.pathname == b.pathname && Ambiguous(a.pairs) == Ambiguous(b.pairs)
        && ParseCode(a.pairs) == ParseCode(b.pairs)
    requires Get(a.pairs, "app") == Get(b.pairs, "app") && Get(a.pairs, "tab") == Get(b.pairs, "tab")
    requires Get(a.pairs, "settings") == Get(b.pairs, "settings")
    ensures ParseAppLink(a, apps) == ParseAppLink(b, apps)
  {
    hide Get, ParseCode, Ambiguous, Section, UnderApp, Named, Alias;
    assert ParsePathForm(a, apps) == ParsePathForm(b, apps);
  }

  const SURFACING: Location := Location("/os", Printed(SURFACING_ENTRIES))

  const SURFACING_ENTRIES: Entries := [("app", "settings"), ("settings", "nowhere"), ("tab", "usage")]

  lemma SurfacingGet(key: string)
    ensures Get(SURFACING.pairs, key)
         == if key == "app" then Some("settings") else if key == "settings" then Some("nowhere")
            else if key == "tab" then Some("usage") else None
  {
    var e := SURFACING_ENTRIES;
    SurfacingIsOnce();
    hide Get, Printed, ValueIn;
    ThreeEntries(e[0], e[1], e[2], key);
    PrintedGet(e, key);
  }

  lemma SurfacingIsOnce()
    ensures Filled(SURFACING_ENTRIES) && Once(SURFACING_ENTRIES)
  {
  }

  lemma SurfacingValues()
    ensures !Ambiguous(SURFACING.pairs) && Get(SURFACING.pairs, "app") == Some("settings")
    ensures Get(SURFACING.pairs, "settings") == Some("nowhere") && Get(SURFACING.pairs, "tab") == Some("usage")
  {
    hide Get, Printed, Ambiguous;
    SurfacingIsOnce();
    NothingRepeated(SURFACING_ENTRIES);
    SurfacingGet("app");
    SurfacingGet("settings");
    SurfacingGet("tab");
  }

  lemma SettingsRegistry()
    ensures Registry({"settings"})
  {
    var id := "settings";
    assert forall i :: 0 <= i < |id| ==> IdChar(id[i]);
  }

  /** That exception is real: this location opens the settings on no tab, and its canonical spelling on one. */
  lemma TabCanSurface()
    ensures ParseAppLink(SURFACING, {"settings"}) == Some(Link("settings", None, NOTHING))
    ensures ParseAppLink(CanonicalUrl(SURFACING, Link("settings", None, NOTHING), None),
                         {"settings"}) != ParseAppLink(SURFACING, {"settings"})
  {
    SurfacingValues();
    SettingsRegistry();
    hide Get, Printed, Ambiguous, Registry, CanonicalUrl;
    assert !UnderApp(SURFACING.pathname);
    assert ParseAppLink(SURFACING, {"settings"}) == Some(Link("settings", None, NOTHING));
    CanonicalKeepsTheLink(SURFACING, {"settings"});
  }
}
