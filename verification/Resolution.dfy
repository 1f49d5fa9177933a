/**
 * What a specifier names on a tree that does not change: Node's resolution algorithm with this resolver's own choices,
 * asked of the tree alone, with nothing kept between two questions.
 */
module Resolution {
  import opened Wrappers
  import opened Strings
  import opened Paths

  datatype Kind = File | Directory | Absent | Other

  type Digest = string

  type Conditions = seq<string>

  /** A file's text, or why it was not read: `absent` for the codes a missing config fails with. */
  datatype Reading = Text(text: string) | Unread(absent: bool)

  /** A parsed package config a resolution goes by: any JSON value that is not falsy. */
  datatype Manifest = Manifest(isObject: bool, name: Option<string>, fields: map<string, string>, exportsMap: Option<string>,
                               importsMap: Option<string>)

  datatype Json = Malformed | Falsy | Parsed(m: Manifest)

  /** The filesystem and the `resolve.exports` package, as far as a resolution asks them. None: the call throws. */
  datatype World = World(
    kind: Path -> Kind,
    read: Path -> Reading,
    parse: string -> Json,
    digest: Path -> Option<Digest>,
    links: Option<Path -> Option<Path>>,
    exports: (Manifest, string, Conditions) -> Option<seq<string>>,
    imports: (Manifest, string, Conditions) -> Option<seq<string>>)

  datatype Options = Options(
    conditionSets: seq<Conditions>,
    setsFor: string -> Option<seq<Conditions>>,
    extensions: seq<string>,
    mainFields: seq<string>,
    globalRoots: seq<Path>,
    members: set<Path>,
    sourceExtensions: Option<seq<string>>,
    skipThrowingCjs: bool,
    throwNotExported: bool)

  /** A file, null, ERR_PACKAGE_PATH_NOT_EXPORTED, or more imports maps in a row than were allowed for. */
  datatype Answer = Found(path: Path) | Missing | Refused(config: Path, subpath: string) | Deep

  function Answered(path: Option<Path>): Answer {
    if path.Some? then Found(path.value) else Missing
  }

  function OrElse(a: Option<Path>, b: Option<Path>): Option<Path> {
    if a.Some? then a else b
  }

  predicate IsFile(w: World, path: Path) {
    w.kind(path) == File
  }

  predicate IsDirectory(w: World, path: Path) {
    w.kind(path) == Directory
  }

  /** The config in a directory. */
  function ConfigPath(directory: Path): Path {
    Under(directory, "package.json")
  }

  function ConfigAt(w: World, path: Path): Option<Manifest> {
    if !IsFile(w, path) then None
    else
      match w.read(path)
      case Unread(_) => None
      case Text(text) => if w.parse(text).Parsed? then Some(w.parse(text).m) else None
  }

  /** A config whose absence is proved. */
  predicate Missed(w: World, path: Path) {
    w.kind(path) == Directory || w.kind(path) == Absent || (IsFile(w, path) && w.read(path) == Unread(true))
  }

  function FirstFile(w: World, candidates: seq<Path>): Option<Path> {
    if candidates == [] then None
    else if IsFile(w, candidates[0]) then Some(candidates[0])
    else FirstFile(w, candidates[1..])
  }

  function Extended(stem: Path, extensions: seq<string>): seq<Path> {
    if extensions == [] then [] else [stem + extensions[0]] + Extended(stem, extensions[1..])
  }

  /** The TypeScript source beside an absent JavaScript name. */
  function Sibling(o: Options, path: Path): seq<Path> {
    var (stem, extension) := Dotted(path);
    if extension in TYPESCRIPT_SIBLINGS && TYPESCRIPT_SIBLINGS[extension] in o.extensions
    then [stem + TYPESCRIPT_SIBLINGS[extension]] else []
  }

  function AsFile(w: World, o: Options, path: Path): Option<Path> {
    FirstFile(w, [path] + Extended(path, o.extensions) + Sibling(o, path))
  }

  function Index(w: World, o: Options, path: Path): Option<Path> {
    FirstFile(w, Extended(path + "/index", o.extensions))
  }

  /** Each extension is tried as the file and then as the index of a directory. */
  function Sources(stem: Path, extensions: seq<string>): seq<Path> {
    if extensions == [] then [] else [stem + extensions[0], stem + "/index" + extensions[0]] + Sources(stem, extensions[1..])
  }

  function SourceExtensions(o: Options): seq<string> {
    if o.sourceExtensions.Some? then o.sourceExtensions.value else o.extensions
  }

  function RealOf(w: World, path: Path): Path {
    if w.links.Some? && w.links.value(path).Some? then w.links.value(path).value else path
  }

  function MemberRoot(packageRoot: Path): Path {
    if WithoutTrailing(packageRoot) == "" then "/" else WithoutTrailing(packageRoot)
  }

  /** A workspace member's declared entry that is not there is answered by its source. */
  function WorkspaceSource(w: World, o: Options, packageRoot: Path, declared: string): Option<Path> {
    var root := MemberRoot(packageRoot);
    var linked := RealOf(w, root);
    if root !in o.members && linked !in o.members then None
    else FirstFile(w, SourcesIn(o, root, declared) + if linked == root then [] else SourcesIn(o, linked, declared))
  }

  function SourcesIn(o: Options, base: Path, declared: string): seq<Path> {
    Sources(base + "/src/" + SourceStem(declared), SourceExtensions(o))
    + Sources(base + "/" + SourceStem(declared), SourceExtensions(o))
  }

  function AsDirectory(w: World, o: Options, path: Path): Option<Path> {
    if !IsDirectory(w, path) then None
    else
      var pkg := ConfigAt(w, ConfigPath(path));
      OrElse(if pkg.Some? then MainFrom(w, o, path, pkg.value, o.mainFields) else None, Index(w, o, path))
  }

  function MainFrom(w: World, o: Options, path: Path, pkg: Manifest, fields: seq<string>): Option<Path> {
    if fields == [] then None
    else OrElse(MainField(w, o, path, pkg, fields[0]), MainFrom(w, o, path, pkg, fields[1..]))
  }

  function MainField(w: World, o: Options, path: Path, pkg: Manifest, field: string): Option<Path> {
    if field !in pkg.fields || pkg.fields[field] == "" then None
    else
      var target := Join(path, pkg.fields[field]);
      OrElse(AsFile(w, o, target), OrElse(Index(w, o, target), WorkspaceSource(w, o, path, pkg.fields[field])))
  }

  /** A `.cjs` file whose whole content is a `throw`; one that cannot be read is taken as it is. */
  predicate ThrowingStub(w: World, path: Path) {
    w.read(path).Text? && StartsWith(TrimStart(w.read(path).text), "throw ")
  }

  function TrimStart(text: string): string {
    if text != "" && IsSpace(text[0]) then TrimStart(text[1..]) else text
  }

  predicate IsSpace(c: char) {
    || '\U{0009}' <= c <= '\U{000D}' || c == ' ' || c == '\U{00A0}' || c == '\U{1680}' || '\U{2000}' <= c <= '\U{200A}'
    || c == '\U{2028}' || c == '\U{2029}' || c == '\U{202F}' || c == '\U{205F}' || c == '\U{3000}' || c == '\U{FEFF}'
  }

  // ------------------------------------------------------------------ package exports

  function TargetsOf(targets: Option<seq<string>>): seq<string> {
    if targets.Some? then targets.value else []
  }

  function ExportTarget(w: World, o: Options, root: Path, target: string): Option<Path> {
    var found := OrElse(AsFile(w, o, Join(root, target)), WorkspaceSource(w, o, root, target));
    if found.Some? && o.skipThrowingCjs && EndsWith(found.value, ".cjs") && ThrowingStub(w, found.value) then None else found
  }

  function ExportTargets(w: World, o: Options, root: Path, targets: seq<string>): Option<Path> {
    if targets == [] then None else OrElse(ExportTarget(w, o, root, targets[0]), ExportTargets(w, o, root, targets[1..]))
  }

  function ExportSets(w: World, o: Options, root: Path, pkg: Manifest, subpath: string, sets: seq<Conditions>): Option<Path> {
    if sets == [] then None
    else OrElse(ExportTargets(w, o, root, TargetsOf(w.exports(pkg, subpath, sets[0]))),
                ExportSets(w, o, root, pkg, subpath, sets[1..]))
  }

  /** Whether the map names the subpath under any condition set. */
  predicate NamedIn(w: World, pkg: Manifest, subpath: string, sets: seq<Conditions>) {
    exists s :: s in sets && TargetsOf(w.exports(pkg, subpath, s)) != []
  }

  function SetsOf(o: Options, packageName: string): seq<Conditions> {
    if o.setsFor(packageName).Some? then o.setsFor(packageName).value else o.conditionSets
  }

  function Subpath(specifier: string, packageName: string): string {
    if specifier == packageName then "." else "." + if |packageName| <= |specifier| then specifier[|packageName|..] else ""
  }

  function PackageExports(w: World, o: Options, root: Path, pkg: Manifest, specifier: string): Answer {
    var name := PackageNameOf(specifier);
    var subpath := Subpath(specifier, name);
    var found := ExportSets(w, o, root, pkg, subpath, SetsOf(o, name));
    if found.None? && o.throwNotExported && !NamedIn(w, pkg, subpath, SetsOf(o, name))
    then Refused(root + "/package.json", subpath) else Answered(found)
  }

  // ------------------------------------------------------------------ the walks

  function FromNodeModules(w: World, o: Options, nodeModules: Path, specifier: string): Answer {
    var name := PackageNameOf(specifier);
    var root := nodeModules + "/" + name;
    var rooted := IsDirectory(w, root);
    var path := nodeModules + "/" + specifier;
    var pkg := if rooted then ConfigAt(w, ConfigPath(root)) else None;
    if !rooted && specifier != name then Missing
    else if pkg.Some? && pkg.value.exportsMap.Some? then PackageExports(w, o, root, pkg.value, specifier)
    else Answered(OrElse(AsFile(w, o, path), AsDirectory(w, o, path)))
  }

  /** The nearest config at or above a directory, short of the root and of a `node_modules`. */
  function Nearest(w: World, directory: Path): Option<(Path, Manifest)>
    decreases Depth(directory)
  {
    if directory == "/" || InNodeModules(directory) then None
    else if ConfigAt(w, ConfigPath(directory)).Some? then Some((directory, ConfigAt(w, ConfigPath(directory)).value))
    else Nearest(w, Parent(directory))
  }

  function PackageSelf(w: World, o: Options, specifier: string, from: Path): Answer {
    var near := Nearest(w, from);
    if near.Some? && near.value.1.name == Some(PackageNameOf(specifier)) && near.value.1.exportsMap.Some?
    then PackageExports(w, o, near.value.0, near.value.1, specifier) else Missing
  }

  function Level(w: World, o: Options, specifier: string, directory: Path): Answer {
    if !InNodeModules(directory) && IsDirectory(w, Under(directory, "node_modules"))
    then FromNodeModules(w, o, Under(directory, "node_modules"), specifier) else Missing
  }

  function WalkUp(w: World, o: Options, specifier: string, directory: Path): Answer
    decreases Depth(directory)
  {
    var here := Level(w, o, specifier, directory);
    if here != Missing then here
    else if directory == "/" then Roots(w, o, specifier, o.globalRoots)
    else WalkUp(w, o, specifier, Parent(directory))
  }

  function Roots(w: World, o: Options, specifier: string, roots: seq<Path>): Answer {
    if roots == [] then Missing
    else
      var here := if IsDirectory(w, roots[0]) then FromNodeModules(w, o, roots[0], specifier) else Missing;
      if here != Missing then here else Roots(w, o, specifier, roots[1..])
  }

  predicate IsImport(specifier: string) {
    StartsWith(specifier, "#")
  }

  predicate IsRelative(specifier: string) {
    || StartsWith(specifier, "./") || StartsWith(specifier, "../") || StartsWith(specifier, "/")
    || specifier == "." || specifier == ".."
  }

  /** A specifier that is a path or a package's. */
  function Plain(w: World, o: Options, specifier: string, from: Path): Answer {
    if IsRelative(specifier) then
      Answered(OrElse(AsFile(w, o, Join(from, specifier)), AsDirectory(w, o, Join(from, specifier))))
    else
      var self := PackageSelf(w, o, specifier, from);
      if self != Missing then self else WalkUp(w, o, specifier, from)
  }

  /** `depth`: how many imports maps in a row may lead to one another. */
  function Resolved(depth: nat, w: World, o: Options, specifier: string, from: Path): Answer
    decreases depth, 4
  {
    if IsImport(specifier) then PackageImports(depth, w, o, specifier, from) else Plain(w, o, specifier, from)
  }

  function PackageImports(depth: nat, w: World, o: Options, specifier: string, from: Path): Answer
    decreases depth, 3
  {
    var near := Nearest(w, from);
    if near.None? || near.value.1.importsMap.None? then Missing
    else ImportSets(depth, w, o, near.value.0, near.value.1, specifier, o.conditionSets)
  }

  function ImportSets(depth: nat, w: World, o: Options, directory: Path, pkg: Manifest, specifier: string,
                      sets: seq<Conditions>): Answer
    decreases depth, 2, |sets|
  {
    if sets == [] then Missing
    else
      var here := ImportTargets(depth, w, o, directory, TargetsOf(w.imports(pkg, specifier, sets[0])));
      if here != Missing then here else ImportSets(depth, w, o, directory, pkg, specifier, sets[1..])
  }

  function ImportTargets(depth: nat, w: World, o: Options, directory: Path, targets: seq<string>): Answer
    decreases depth, 1, |targets|
  {
    if targets == [] then Missing
    else
      var here := ImportTarget(depth, w, o, directory, targets[0]);
      if here != Missing then here else ImportTargets(depth, w, o, directory, targets[1..])
  }

  function ImportTarget(depth: nat, w: World, o: Options, directory: Path, target: string): Answer
    decreases depth, 0, 0
  {
    if StartsWith(target, ".") || StartsWith(target, "/") then Answered(AsFile(w, o, Join(directory, target)))
    else if !IsImport(target) then Plain(w, o, target, directory)
    else if depth == 0 then Deep
    else Resolved(depth - 1, w, o, target, directory)
  }

  /** The whole resolution: the real path of what was found. */
  function AnswerOf(depth: nat, w: World, o: Options, specifier: string, from: Path): Answer {
    var found := Resolved(depth, w, o, specifier, from);
    if found.Found? then Found(RealOf(w, found.path)) else found
  }
}
