/**
 * Links to apps: what `/app/<id>?...` and its older spelling say (shell/ezil/app-link.js), and how the shell writes
 * them (shell/ezil/app-history.js). A query is its raw pairs, as `&` separates them.
 */
module AppLink {
  import opened Options
  import opened Paths
  import opened Percent
  import F = FolderPath

  datatype Location = Location(pathname: string, pairs: seq<string>)

  datatype Project = Project(projectId: string, repoId: string, path: Option<string>)

  datatype ProjectError = ProjectMissing | RepoMissing | ProjectInvalid | RepoInvalid

  datatype PathError =
    | EmptyPath | EncodedSeparator | PathTooLong | AbsolutePath | BackslashInPath | ControlInPath | DotSegment
    | BadSegment

  datatype FolderRefusal = WithRepository | Lexical(why: F.FolderError)

  // What a link says to Code.
  datatype CodeParams = CodeParams(
    project: Option<Project>, projectRejected: Option<ProjectError>, pathRejected: Option<PathError>,
    folder: Option<string>, folderRejected: Option<FolderRefusal>)

  datatype Link = Link(id: string, initialTab: Option<string>, code: CodeParams)

  const NOTHING := CodeParams(None, None, None, None, None)

  predicate Section(s: string) {
    s in {"account", "usage", "billing", "computers", "system", "appearance", "about", "troubleshoot"}
  }

  const KEYS: seq<string> := ["app", "settings", "tab", "project", "repo", "path", "folder"]

  function Alias(id: string): string {
    if id == "browser" then "desktop" else id
  }

  // --- Query values -------------------------------------------------------------------------------------------------

  predicate HasKey(pair: string, key: string) {
    Decode(NameOf(pair)) == key
  }

  function Raws(pairs: seq<string>, key: string): seq<string> {
    if pairs == [] then []
    else if HasKey(pairs[0], key) then [ValueOf(pairs[0])] + Raws(pairs[1..], key) else Raws(pairs[1..], key)
  }

  function Raw(pairs: seq<string>, key: string): Option<string> {
    if Raws(pairs, key) == [] then None else Some(Raws(pairs, key)[0])
  }

  function Get(pairs: seq<string>, key: string): Option<string> {
    if Raw(pairs, key).None? then None else Some(Decode(Raw(pairs, key).value))
  }

  predicate Repeated(pairs: seq<string>, key: string) {
    |Raws(pairs, key)| > 1
  }

  predicate Ambiguous(pairs: seq<string>) {
    exists i :: 0 <= i < |KEYS| && Repeated(pairs, KEYS[i])
  }

  // --- Code's parameters --------------------------------------------------------------------------------------------

  predicate HexLower(c: char) {
    '0' <= c <= '9' || 'a' <= c <= 'f'
  }

  predicate Uuid(s: string) {
    |s| == 36
        && forall i :: 0 <= i < 36 ==> if i == 8 || i == 13 || i == 18 || i == 23 then s[i] == '-' else HexLower(s[i])
  }

  predicate SegmentChar(c: char) {
    'A' <= c <= 'Z' || 'a' <= c <= 'z' || '0' <= c <= '9' || c == '.' || c == '_' || c == '-'
  }

  predicate GoodSegment(s: string) {
    s != "" && forall i :: 0 <= i < |s| ==> SegmentChar(s[i])
  }

  // `%2F` or `%5C`, in either case, somewhere in the raw value.
  predicate HidesSeparator(raw: string) {
    exists i :: 0 <= i < |raw| - 2 && raw[i] == '%'
      && ((raw[i + 1] == '2' && raw[i + 2] in "fF") || (raw[i + 1] == '5' && raw[i + 2] in "cC"))
  }

  function SegmentProblem(segments: seq<string>): Option<PathError> {
    if segments == [] then None
    else if segments[0] == "." || segments[0] == ".." then Some(DotSegment)
    else if !GoodSegment(segments[0]) then Some(BadSegment)
    else SegmentProblem(segments[1..])
  }

  function PathProblem(value: string, raw: string): Option<PathError> {
    if value == "" then Some(EmptyPath)
    else if HidesSeparator(raw) then Some(EncodedSeparator)
    else if F.Bytes(value) > 255 then Some(PathTooLong)
    else if value[0] == '/' then Some(AbsolutePath)
    else if '\\' in value then Some(BackslashInPath)
    else if exists i :: 0 <= i < |value| && F.IsControl(value[i]) then Some(ControlInPath)
    else SegmentProblem(Segments(value))
  }

  function ParseProject(pairs: seq<string>): CodeParams {
    var project, repo, path := Get(pairs, "project"), Get(pairs, "repo"), Get(pairs, "path");
    if project.None? && repo.None? then
      if path.Some? then NOTHING.(projectRejected := Some(ProjectMissing)) else NOTHING
    else if project.None? then NOTHING.(projectRejected := Some(ProjectMissing))
    else if repo.None? then NOTHING.(projectRejected := Some(RepoMissing))
    else if !Uuid(project.value) then NOTHING.(projectRejected := Some(ProjectInvalid))
    else if !Uuid(repo.value) then NOTHING.(projectRejected := Some(RepoInvalid))
    else if path.None? then NOTHING.(project := Some(Project(project.value, repo.value, None)))
    else
      match PathProblem(path.value, Raw(pairs, "path").value)
      case Some(why) => NOTHING.(project := Some(Project(project.value, repo.value, None)), pathRejected := Some(why))
      case None => NOTHING.(project := Some(Project(project.value, repo.value, path)))
  }

  function ParseCode(pairs: seq<string>): CodeParams {
    var code, folder := ParseProject(pairs), Get(pairs, "folder");
    if folder.None? then code
    else if code.project.Some? then code.(folderRejected := Some(WithRepository))
    else
      match F.ParseText(folder.value)
      case Ok(f) => code.(folder := Some(f))
      case Err(why) => code.(folderRejected := Some(Lexical(why)))
  }

  // --- Links --------------------------------------------------------------------------------------------------------

  predicate IdChar(c: char) {
    'a' <= c <= 'z' || '0' <= c <= '9' || c == '-'
  }

  predicate AppId(s: string) {
    s != "" && forall i :: 0 <= i < |s| ==> IdChar(s[i])
  }

  predicate UnderApp(pathname: string) {
    pathname == "/app" || "/app/" <= pathname
  }

  function Named(pathname: string): Option<string> {
    if "/app/" <= pathname && AppId(pathname[5..]) then Some(pathname[5..]) else None
  }

  function Or(a: Option<string>, b: Option<string>): Option<string> {
    if a.Some? then a else b
  }

  function Finish(id: string, section: Option<string>, pairs: seq<string>, apps: set<string>): Option<Link> {
    if id == "" || id !in apps then None
    else
      Some(Link(id, if id == "settings" && section.Some? && Section(section.value) then section else None,
                if id == "code" then ParseCode(pairs) else NOTHING))
  }

  // The path names the app; a second selector in the query is a conflict.
  function ParsePathForm(loc: Location, apps: set<string>): Option<Link> {
    var pairs := loc.pairs;
    if Named(loc.pathname).None? || Get(pairs, "app").Some? then None
    else
      var id := Alias(Named(loc.pathname).value);
      var tab, settings := Get(pairs, "tab"), Get(pairs, "settings");
      if id == "settings" && tab.Some? && settings.Some? && tab != settings then None
      else Finish(id, Or(tab, settings), pairs, apps)
  }

  function ParseAlias(loc: Location, apps: set<string>): Option<Link> {
    var pairs := loc.pairs;
    var requested, settings := Get(pairs, "app"), Get(pairs, "settings");
    var id := if requested.Some? && requested.value != "" then Alias(requested.value)
              else if settings.Some? && Section(settings.value) then "settings" else "";
    Finish(id, if id == "settings" then Or(settings, Get(pairs, "tab")) else settings, pairs, apps)
  }

  function ParseAppLink(loc: Location, apps: set<string>): Option<Link> {
    if Ambiguous(loc.pairs) then None
    else if UnderApp(loc.pathname) then ParsePathForm(loc, apps) else ParseAlias(loc, apps)
  }

  // What the registry promises: every id can stand in a path, and none is another app's alias.
  predicate Registry(apps: set<string>) {
    forall id :: id in apps ==> AppId(id) && Alias(id) == id
  }

  // --- Printing -----------------------------------------------------------------------------------------------------

  type Entries = seq<(string, string)>

  function Printed(entries: Entries): seq<string> {
    if entries == [] then []
    else if entries[0].1 == "" then Printed(entries[1..])
    else [Pair(entries[0].0, entries[0].1)] + Printed(entries[1..])
  }

  function AppUrl(id: string, params: Entries): Location {
    Location("/app/" + Encode(id), Printed(params))
  }

  function Given(key: string, value: Option<string>): Entries {
    if value.Some? then [(key, value.value)] else []
  }

  function LinkParams(link: Link): Entries {
    if link.id == "settings" then Given("tab", link.initialTab)
    else if link.id != "code" then []
    else
      (if link.code.project.Some? then
         var p := link.code.project.value;
         [("project", p.projectId), ("repo", p.repoId)] + Given("path", p.path)
       else [])
      + Given("folder", link.code.folder)
  }

  // --- Canonical spelling -------------------------------------------------------------------------------------------

  // Every other pair is kept byte for byte.
  function Kept(pairs: seq<string>, tabbed: bool): seq<string> {
    if pairs == [] then []
    else if pairs[0] == "" || HasKey(pairs[0], "app") || HasKey(pairs[0], "settings")
        || (tabbed && HasKey(pairs[0], "tab")) then
      Kept(pairs[1..], tabbed)
    else [pairs[0]] + Kept(pairs[1..], tabbed)
  }

  predicate Tabbed(link: Link) {
    link.id == "settings" && link.initialTab.Some?
  }

  // The caller may give the query to keep, when it has used up some of the location's own.
  function QueryToKeep(loc: Location, search: Option<seq<string>>): seq<string> {
    if search.Some? then search.value else loc.pairs
  }

  function CanonicalUrl(loc: Location, link: Link, search: Option<seq<string>>): Location {
    Location("/app/" + Encode(link.id),
             (if Tabbed(link) then [Pair("tab", link.initialTab.value)] else [])
                 + Kept(QueryToKeep(loc, search), Tabbed(link)))
  }

  // The location without the pairs of some keys, for links that work once.
  function WithoutKeys(pairs: seq<string>, keys: set<string>): seq<string> {
    if pairs == [] then []
    else if pairs[0] == "" || Decode(NameOf(pairs[0])) in keys then WithoutKeys(pairs[1..], keys)
    else [pairs[0]] + WithoutKeys(pairs[1..], keys)
  }
}
