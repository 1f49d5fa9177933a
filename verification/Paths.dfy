/** The resolver's path and specifier arithmetic. */
module Paths {
  import opened Strings

  type Path = string

  /** The parts with `.` and empty ones dropped and `..` taking back the one before. */
  function Walked(parts: seq<string>, done: seq<string>): seq<string>
    decreases |parts|
  {
    if parts == [] then done
    else if parts[0] == "" || parts[0] == "." then Walked(parts[1..], done)
    else if parts[0] == ".." then Walked(parts[1..], if done == [] then [] else done[..|done| - 1])
    else Walked(parts[1..], done + [parts[0]])
  }

  function Normalize(path: Path): Path {
    "/" + JoinWith(Walked(Split(path, '/'), []), '/')
  }

  function Join(base: Path, relative: string): Path {
    Normalize(if StartsWith(relative, "/") then relative else base + "/" + relative)
  }

  /** How far a directory is from the root, as the walk up counts it. */
  function Depth(directory: Path): nat {
    if directory == "/" then 0 else |directory| + 1
  }

  function Parent(path: Path): (up: Path)
    ensures path != "/" ==> Depth(up) < Depth(path)
  {
    var k := LastIndexOf(path, '/');
    if k <= 0 then "/" else path[..k]
  }

  predicate InNodeModules(directory: Path) {
    EndsWith(directory, "/node_modules")
  }

  /** A name under a directory. */
  function Under(directory: Path, name: string): Path {
    (if directory == "/" then "" else directory) + "/" + name
  }

  function PackageNameOf(specifier: string): string {
    var parts := Split(specifier, '/');
    if StartsWith(parts[0], "@") && |parts| > 1 then parts[0] + "/" + parts[1] else parts[0]
  }

  function NotEmpty(parts: seq<string>): seq<string> {
    if parts == [] then [] else (if parts[0] == [] then [] else [parts[0]]) + NotEmpty(parts[1..])
  }

  function WithoutTrailing(path: Path): Path {
    if EndsWith(path, "/") then WithoutTrailing(path[..|path| - 1]) else path
  }

  const SOURCE_SUFFIXES: seq<string> :=
    [".js", ".ts", ".jsx", ".tsx", ".mjs", ".mts", ".mjsx", ".mtsx", ".cjs", ".cts", ".cjsx", ".ctsx"]

  function WithoutSuffix(s: string, suffixes: seq<string>): string {
    if suffixes == [] then s
    else if EndsWith(s, suffixes[0]) then s[..|s| - |suffixes[0]|]
    else WithoutSuffix(s, suffixes[1..])
  }

  /** What an entry a build would write is called in the sources: `index` for `./dist/index.mjs`. */
  function SourceStem(declared: string): string {
    var here := if StartsWith(declared, "./") then declared[2..] else declared;
    var relative := if StartsWith(here, "/") then here[1..] else here;
    var parts := NotEmpty(Split(relative, '/'));
    var inner := if |parts| > 1 then JoinWith(parts[1..], '/') else if |parts| == 1 then parts[0] else "index";
    WithoutSuffix(inner, SOURCE_SUFFIXES)
  }

  /** The extension a name ends with and what is before it, when its last dot is in its last part. */
  function Dotted(path: Path): (r: (Path, string))
    ensures r.0 + r.1 == path
  {
    var dot := LastIndexOf(path, '.');
    if dot > LastIndexOf(path, '/') then (path[..dot], path[dot..]) else (path, "")
  }

  const TYPESCRIPT_SIBLINGS: map<string, string> := map[".js" := ".ts", ".mjs" := ".mts", ".cjs" := ".cts", ".jsx" := ".tsx"]
}
