/** Which package answers, by what of it, and which of its targets comes first. */
module ResolutionPackages {
  import opened Wrappers
  import opened Strings
  import opened Paths
  import opened PathLaws
  import opened Resolution
  import opened ResolutionLaws
  import opened ResolutionOrder

  // ------------------------------------------------------------------ names

  lemma {:induction false} NameBegins(specifier: string)
    ensures PackageNameOf(specifier) <= specifier
    ensures specifier != PackageNameOf(specifier) ==> specifier[|PackageNameOf(specifier)|] == '/'
  {
    FirstPart(specifier);
    var first := Split(specifier, '/')[0];
    if specifier != first {
      var rest := specifier[|first| + 1..];
      FirstPart(rest);
      assert specifier == first + ['/'] + rest;
      SplitFirst(first, '/', rest);
      assert Split(specifier, '/')[1] == Split(rest, '/')[0];
    }
  }

  lemma {:induction false} FirstPart(s: string)
    ensures var first := Split(s, '/')[0];
      && Lacks(first, '/') && first <= s
      && (s != first ==> s[|first|] == '/' && |Split(s, '/')| > 1) && (s == first ==> Split(s, '/') == [s])
  {
    if s != [] {
      FirstPart(s[1..]);
      if s[0] != '/' {
        assert s == [s[0]] + s[1..];
      }
    }
  }

  /** What is asked of a package's exports map: `.` for its name alone, else `.` and what follows the name. */
  lemma SubpathIs(name: string, rest: string)
    requires PackageNameOf(name + rest) == name
    ensures Subpath(name + rest, name) == "." + rest && (rest == "" || rest[0] == '/')
  {
    NameBegins(name + rest);
    assert (name + rest)[|name|..] == rest;
    if rest == "" { assert name + rest == name && "." + rest == "."; }
  }

  // ------------------------------------------------------------------ sources of workspace members

  function Slashes(n: nat): string {
    seq(n, _ => '/')
  }

  /** A member's root is named without the slashes it ends with. */
  lemma {:induction false} MemberRootIs(root: Path, n: nat)
    requires !EndsWith(root, "/")
    ensures MemberRoot(root + Slashes(n)) == if root == "" then "/" else root
  {
    WithoutSlashes(root, n);
  }

  lemma {:induction false} WithoutSlashes(root: Path, n: nat)
    requires !EndsWith(root, "/")
    ensures WithoutTrailing(root + Slashes(n)) == root
  {
    if n == 0 {
      assert root + Slashes(0) == root;
    } else {
      var path := root + Slashes(n);
      assert path[|path| - 1..] == "/";
      assert path[..|path| - 1] == root + Slashes(n - 1);
      WithoutSlashes(root, n - 1);
    }
  }

  predicate SuffixShape(suffix: string) {
    suffix != "" && suffix[0] == '.' && Lacks(suffix[1..], '.')
  }

  lemma SameSuffix(s: string, a: string, b: string)
    requires SuffixShape(a) && SuffixShape(b) && EndsWith(s + a, b)
    ensures a == b
  {
    var whole := s + a;
    var k := |whole| - |b|;
    assert whole[k..] == b && whole == s + ['.'] + a[1..] && whole == whole[..k] + ['.'] + b[1..];
    LastIndexIs(s, '.', a[1..]);
    LastIndexIs(whole[..k], '.', b[1..]);
    assert whole[|s|..] == a;
  }

  lemma NoSuffix(s: string, suffix: string)
    requires Lacks(s, '.') && SuffixShape(suffix)
    ensures !EndsWith(s, suffix)
  {
    assert |suffix| <= |s| ==> s[|s| - |suffix|..][0] != '.';
  }

  lemma {:induction false} SuffixTaken(s: string, suffix: string, suffixes: seq<string>)
    requires suffix in suffixes && forall k :: 0 <= k < |suffixes| ==> SuffixShape(suffixes[k])
    ensures WithoutSuffix(s + suffix, suffixes) == s
  {
    assert SuffixShape(suffixes[0]);
    if EndsWith(s + suffix, suffixes[0]) {
      var k :| 0 <= k < |suffixes| && suffixes[k] == suffix;
      SameSuffix(s, suffix, suffixes[0]);
      assert (s + suffix)[..|s|] == s;
    } else {
      assert (s + suffix)[|s|..] == suffix;
      SuffixTaken(s, suffix, suffixes[1..]);
    }
  }

  lemma {:induction false} SuffixKept(s: string, suffixes: seq<string>)
    requires forall k :: 0 <= k < |suffixes| ==> !EndsWith(s, suffixes[k])
    ensures WithoutSuffix(s, suffixes) == s
  {
    if suffixes != [] {
      SuffixKept(s, suffixes[1..]);
    }
  }

  lemma SuffixesAre(suffix: string)
    requires suffix in {".js", ".jsx", ".ts", ".tsx", ".mjs", ".mjsx", ".mts", ".mtsx", ".cjs", ".cjsx", ".cts", ".ctsx"}
    ensures suffix in SOURCE_SUFFIXES && Lacks(suffix, '/')
  {
    var all := SOURCE_SUFFIXES;
    assert all[0] == ".js" && all[1] == ".ts" && all[2] == ".jsx" && all[3] == ".tsx" && all[4] == ".mjs" && all[5] == ".mts";
    assert all[6] == ".mjsx" && all[7] == ".mtsx" && all[8] == ".cjs" && all[9] == ".cts";
    assert all[10] == ".cjsx" && all[11] == ".ctsx";
  }

  lemma SuffixShapes()
    ensures forall k :: 0 <= k < |SOURCE_SUFFIXES| ==> SuffixShape(SOURCE_SUFFIXES[k])
  {
  }

  lemma {:induction false} NotEmptyStays(parts: seq<string>)
    requires forall k :: 0 <= k < |parts| ==> parts[k] != ""
    ensures NotEmpty(parts) == parts
  {
    if parts != [] {
      NotEmptyStays(parts[1..]);
      assert parts == [parts[0]] + parts[1..];
    }
  }

  predicate Names(parts: seq<string>) {
    forall k :: 0 <= k < |parts| ==> parts[k] != "" && Lacks(parts[k], '/')
  }

  /**
   * A declared entry below a directory is named without it, one in the package by its own name, however it is begun.
   */
  lemma DeclaredBelow(begun: string, names: seq<string>)
    requires begun in {"", "./", "/"} && names != [] && Names(names) && names[0] != "."
    ensures SourceStem(begun + JoinWith(names, '/'))
         == WithoutSuffix(JoinWith(if |names| == 1 then names else names[1..], '/'), SOURCE_SUFFIXES)
  {
    hide WithoutSuffix;
    var relative := JoinWith(names, '/');
    var declared := begun + relative;
    assert names[0] <= relative && relative[0] == names[0][0] != '/' by { assert Lacks(names[0], '/'); }
    assert !StartsWith(relative, "./") by {
      if |names[0]| > 1 { assert relative[1] == names[0][1] != '/'; }
    }
    assert begun == "./" ==> declared[..2] == "./" && declared[2..] == relative;
    assert begun == "/" ==> declared[..1] == "/" && declared[1..] == relative && declared[0] == '/';
    assert begun == "" ==> declared == relative;
    forall p | p in names ensures Lacks(p, '/') {
      var k :| 0 <= k < |names| && names[k] == p;
    }
    SplitJoined(names, '/');
    NotEmptyStays(names);
  }

  /** The source of a built entry has its name without the suffix: `index` for `./dist/index.mjs`. */
  lemma SourceNamed(begun: string, built: string, stem: string, suffix: string)
    requires begun in {"", "./", "/"} && built != "" && built != "." && Lacks(built, '/') && Lacks(stem, '/')
    requires suffix in {".js", ".jsx", ".ts", ".tsx", ".mjs", ".mjsx", ".mts", ".mtsx", ".cjs", ".cjsx", ".cts", ".ctsx"}
    ensures SourceStem(begun + built + "/" + stem + suffix) == stem
  {
    SuffixesAre(suffix);
    SuffixShapes();
    SourceNamedBy(begun, built, stem, suffix);
  }

  lemma SourceNamedBy(begun: string, built: string, stem: string, suffix: string)
    requires begun in {"", "./", "/"} && built != "" && built != "." && Lacks(built, '/') && Lacks(stem, '/')
    requires suffix in SOURCE_SUFFIXES && Lacks(suffix, '/')
    requires forall k :: 0 <= k < |SOURCE_SUFFIXES| ==> SuffixShape(SOURCE_SUFFIXES[k])
    ensures SourceStem(begun + built + "/" + stem + suffix) == stem
  {
    hide WithoutSuffix, SourceStem;
    assert Lacks(stem + suffix, '/');
    SuffixTaken(stem, suffix, SOURCE_SUFFIXES);
    var names := [built, stem + suffix];
    assert names[1..] == [stem + suffix];
    assert JoinWith(names, '/') == built + "/" + (stem + suffix);
    DeclaredBelow(begun, names);
    assert begun + JoinWith(names, '/') == begun + built + "/" + stem + suffix;
  }

  /** A declared entry with nothing in it is the package's index. */
  lemma SourceOfNothing()
    ensures SourceStem("") == SourceStem("./") == SourceStem("/") == "index"
  {
    hide WithoutSuffix;
    assert "./"[2..] == "" && "/"[1..] == "";
    assert Split("", '/') == [""] && NotEmpty([""]) == [] by { assert [""][1..] == []; }
    SuffixShapes();
    forall k | 0 <= k < |SOURCE_SUFFIXES| ensures !EndsWith("index", SOURCE_SUFFIXES[k]) {
      NoSuffix("index", SOURCE_SUFFIXES[k]);
    }
    SuffixKept("index", SOURCE_SUFFIXES);
  }

  /** Whether one of the two names an extension gives a source is a file. */
  ghost predicate SourceAt(w: World, stem: Path, extension: string) {
    IsFile(w, stem + extension) || IsFile(w, stem + "/index" + extension)
  }

  /** The source of a stem: at the first extension with a file, and there the file before the index of a directory. */
  ghost predicate SourceFor(w: World, stem: Path, extensions: seq<string>, p: Path) {
    exists k :: 0 <= k < |extensions| && FirstSource(w, stem, extensions, k)
      && p == if IsFile(w, stem + extensions[k]) then stem + extensions[k] else stem + "/index" + extensions[k]
  }

  ghost predicate FirstSource(w: World, stem: Path, extensions: seq<string>, k: nat)
    requires k < |extensions|
  {
    SourceAt(w, stem, extensions[k]) && forall j :: 0 <= j < k ==> !SourceAt(w, stem, extensions[j])
  }

  lemma {:induction false} SourcesFirst(w: World, stem: Path, extensions: seq<string>)
    ensures forall p :: FirstFile(w, Sources(stem, extensions)) == Some(p) <==> SourceFor(w, stem, extensions, p)
  {
    if extensions != [] {
      SourcesFirst(w, stem, extensions[1..]);
      var here, rest := [stem + extensions[0], stem + "/index" + extensions[0]], Sources(stem, extensions[1..]);
      FirstOfTwo(w, here, rest);
      assert here[1..] == [here[1]];
      forall p ensures FirstFile(w, here + rest) == Some(p) <==> SourceFor(w, stem, extensions, p) {
        if SourceAt(w, stem, extensions[0]) {
          assert FirstSource(w, stem, extensions, 0);
        } else {
          if SourceFor(w, stem, extensions, p) {
            var k :| 0 <= k < |extensions| && FirstSource(w, stem, extensions, k)
              && p == if IsFile(w, stem + extensions[k]) then stem + extensions[k] else stem + "/index" + extensions[k];
            assert FirstSource(w, stem, extensions[1..], k - 1) by {
              forall j | 0 <= j < k - 1 ensures !SourceAt(w, stem, extensions[1..][j]) {
                assert extensions[1..][j] == extensions[j + 1];
              }
            }
          }
          if SourceFor(w, stem, extensions[1..], p) {
            var k :| 0 <= k < |extensions[1..]| && FirstSource(w, stem, extensions[1..], k) && p ==
              if IsFile(w, stem + extensions[1..][k]) then stem + extensions[1..][k] else stem + "/index" + extensions[1..][k];
            assert FirstSource(w, stem, extensions, k + 1) by {
              forall j | 0 <= j < k + 1 ensures !SourceAt(w, stem, extensions[j]) {
                if j > 0 { assert extensions[1..][j - 1] == extensions[j]; }
              }
            }
          }
        }
      }
    }
  }

  /** The source of a stem in a package: under `src` before the package itself. */
  ghost predicate SourceIn(w: World, o: Options, base: Path, stem: string, p: Path) {
    var extensions := if o.sourceExtensions.Some? then o.sourceExtensions.value else o.extensions;
    if exists q :: SourceFor(w, base + "/src/" + stem, extensions, q) then SourceFor(w, base + "/src/" + stem, extensions, p)
    else SourceFor(w, base + "/" + stem, extensions, p)
  }

  lemma SourcesInFirst(w: World, o: Options, base: Path, declared: string)
    ensures forall p :: FirstFile(w, SourcesIn(o, base, declared)) == Some(p) <==> SourceIn(w, o, base, SourceStem(declared), p)
  {
    hide SourceStem, Sources;
    var extensions := SourceExtensions(o);
    var src, own := base + "/src/" + SourceStem(declared), base + "/" + SourceStem(declared);
    FirstOfTwo(w, Sources(src, extensions), Sources(own, extensions));
    SourcesFirst(w, src, extensions);
    SourcesFirst(w, own, extensions);
    if FirstFile(w, Sources(src, extensions)).Some? {
      assert SourceFor(w, src, extensions, FirstFile(w, Sources(src, extensions)).value);
    }
  }

  /**
   * A member, by its name or its real one, is answered by its source where it is named before where it is; no other is.
   */
  lemma SourceOrder(w: World, o: Options, root: Path, declared: string, p: Path)
    requires root != "" && !EndsWith(root, "/")
    ensures var (stem, linked) := (SourceStem(declared), RealOf(w, root));
      WorkspaceSource(w, o, root, declared) == Some(p) <==>
        && (root in o.members || linked in o.members)
        && if exists q :: SourceIn(w, o, root, stem, q) then SourceIn(w, o, root, stem, p)
           else linked != root && SourceIn(w, o, linked, stem, p)
  {
    MemberRootIs(root, 0);
    assert root + Slashes(0) == root;
    hide SourceStem, SourceIn, SourcesIn;
    var linked := RealOf(w, root);
    FirstOfTwo(w, SourcesIn(o, root, declared), if linked == root then [] else SourcesIn(o, linked, declared));
    SourcesInFirst(w, o, root, declared);
    SourcesInFirst(w, o, linked, declared);
    if FirstFile(w, SourcesIn(o, root, declared)).Some? {
      assert SourceIn(w, o, root, SourceStem(declared), FirstFile(w, SourcesIn(o, root, declared)).value);
    }
  }

  // ------------------------------------------------------------------ stubs

  /** White space and line ends, as the language lists them. */
  lemma SpacesAre(c: char)
    ensures IsSpace(c) <==> c as int in {9, 10, 11, 12, 13, 0x20, 0xA0, 0x1680, 0x2000, 0x2001, 0x2002, 0x2003, 0x2004, 0x2005,
                                         0x2006, 0x2007, 0x2008, 0x2009, 0x200A, 0x2028, 0x2029, 0x202F, 0x205F, 0x3000, 0xFEFF}
  {
  }

  /** A stub is a file that reads as nothing but white space before a `throw `. */
  lemma StubIs(w: World, path: Path, blank: string, text: string)
    requires w.read(path) == Text(blank + text)
    requires (forall k :: 0 <= k < |blank| ==> IsSpace(blank[k])) && (text != "" ==> !IsSpace(text[0]))
    ensures ThrowingStub(w, path) <==> StartsWith(text, "throw ")
  {
    TrimmedIs(blank, text);
  }

  lemma {:induction false} TrimmedIs(blank: string, text: string)
    requires (forall k :: 0 <= k < |blank| ==> IsSpace(blank[k])) && (text != "" ==> !IsSpace(text[0]))
    ensures TrimStart(blank + text) == text
  {
    hide IsSpace;
    if blank == "" {
      assert blank + text == text;
    } else {
      assert (blank + text)[1..] == blank[1..] + text && (blank + text)[0] == blank[0];
      TrimmedIs(blank[1..], text);
    }
  }

  // ------------------------------------------------------------------ exports maps

  /**
   * What one target of a map is answered by: a file, else a member's source; a `.cjs` stub to pass over is no answer.
   */
  ghost predicate TargetGives(w: World, o: Options, root: Path, target: string, p: Path) {
    && (AsFile(w, o, Join(root, target)) == Some(p)
        || (AsFile(w, o, Join(root, target)) == None && WorkspaceSource(w, o, root, target) == Some(p)))
    && !(o.skipThrowingCjs && EndsWith(p, ".cjs") && ThrowingStub(w, p))
  }

  ghost predicate GivesNothing(w: World, o: Options, root: Path, targets: seq<string>) {
    forall k, p :: 0 <= k < |targets| ==> !TargetGives(w, o, root, targets[k], p)
  }

  lemma TargetIs(w: World, o: Options, root: Path, target: string)
    ensures forall p :: ExportTarget(w, o, root, target) == Some(p) <==> TargetGives(w, o, root, target, p)
    ensures (forall p :: !TargetGives(w, o, root, target, p)) ==> ExportTarget(w, o, root, target) == None
  {
    hide AsFile, WorkspaceSource, Join, ThrowingStub;
  }

  lemma {:induction false} TargetsFirst(w: World, o: Options, root: Path, targets: seq<string>, k: nat, p: Path)
    requires k < |targets| && GivesNothing(w, o, root, targets[..k]) && TargetGives(w, o, root, targets[k], p)
    ensures ExportTargets(w, o, root, targets) == Some(p)
    decreases k
  {
    hide ExportTarget, TargetGives;
    TargetIs(w, o, root, targets[0]);
    if k > 0 {
      assert targets[..k][0] == targets[0];
      var before := targets[1..][..k - 1];
      forall j, q | 0 <= j < |before| ensures !TargetGives(w, o, root, before[j], q) {
        assert before[j] == targets[..k][j + 1];
      }
      TargetsFirst(w, o, root, targets[1..], k - 1, p);
    }
  }

  lemma {:induction false} TargetsNone(w: World, o: Options, root: Path, targets: seq<string>)
    requires GivesNothing(w, o, root, targets)
    ensures ExportTargets(w, o, root, targets) == None
  {
    hide ExportTarget, TargetGives;
    if targets != [] {
      TargetIs(w, o, root, targets[0]);
      var after := targets[1..];
      forall j, q | 0 <= j < |after| ensures !TargetGives(w, o, root, after[j], q) {
        assert after[j] == targets[j + 1];
      }
      TargetsNone(w, o, root, targets[1..]);
    }
  }

  /** What a map says of a subpath under conditions; nothing where it throws. */
  function Named(w: World, pkg: Manifest, subpath: string, conditions: Conditions): seq<string> {
    match w.exports(pkg, subpath, conditions)
    case None => []
    case Some(targets) => targets
  }

  lemma {:induction false} SetsFirst(w: World, o: Options, root: Path, pkg: Manifest, subpath: string,
                                     sets: seq<Conditions>,
                                     i: nat, k: nat, p: Path)
    requires i < |sets| && k < |Named(w, pkg, subpath, sets[i])|
    requires forall j :: 0 <= j < i ==> GivesNothing(w, o, root, Named(w, pkg, subpath, sets[j]))
    requires GivesNothing(w, o, root, Named(w, pkg, subpath, sets[i])[..k])
    requires TargetGives(w, o, root, Named(w, pkg, subpath, sets[i])[k], p)
    ensures ExportSets(w, o, root, pkg, subpath, sets) == Some(p)
    decreases i
  {
    hide ExportTargets, TargetGives, GivesNothing;
    if i == 0 {
      TargetsFirst(w, o, root, Named(w, pkg, subpath, sets[0]), k, p);
    } else {
      assert GivesNothing(w, o, root, Named(w, pkg, subpath, sets[0]));
      TargetsNone(w, o, root, Named(w, pkg, subpath, sets[0]));
      forall j | 0 <= j < i - 1 ensures GivesNothing(w, o, root, Named(w, pkg, subpath, sets[1..][j])) {
        assert sets[1..][j] == sets[j + 1];
      }
      SetsFirst(w, o, root, pkg, subpath, sets[1..], i - 1, k, p);
    }
  }

  lemma {:induction false} SetsNone(w: World, o: Options, root: Path, pkg: Manifest, subpath: string,
                                    sets: seq<Conditions>)
    requires forall j :: 0 <= j < |sets| ==> GivesNothing(w, o, root, Named(w, pkg, subpath, sets[j]))
    ensures ExportSets(w, o, root, pkg, subpath, sets) == None
  {
    hide ExportTargets, GivesNothing;
    if sets != [] {
      assert GivesNothing(w, o, root, Named(w, pkg, subpath, sets[0]));
      TargetsNone(w, o, root, Named(w, pkg, subpath, sets[0]));
      SetsNone(w, o, root, pkg, subpath, sets[1..]);
    }
  }

  /** The condition sets of a package: its own where it has some. */
  function Sides(o: Options, name: string): seq<Conditions> {
    match o.setsFor(name)
    case Some(sets) => sets
    case None => o.conditionSets
  }

  /** A package's exports answer by the first target that gives a file, under the first condition set that has one. */
  lemma ExportsOrder(w: World, o: Options, root: Path, pkg: Manifest, name: string, rest: string, i: nat, k: nat,
                     p: Path)
    requires PackageNameOf(name + rest) == name && i < |Sides(o, name)| && k < |Named(w, pkg, "." + rest, Sides(o, name)[i])|
    requires forall j :: 0 <= j < i ==> GivesNothing(w, o, root, Named(w, pkg, "." + rest, Sides(o, name)[j]))
    requires GivesNothing(w, o, root, Named(w, pkg, "." + rest, Sides(o, name)[i])[..k])
    requires TargetGives(w, o, root, Named(w, pkg, "." + rest, Sides(o, name)[i])[k], p)
    ensures PackageExports(w, o, root, pkg, name + rest) == Found(p)
  {
    hide GivesNothing, TargetGives, ExportSets, PackageNameOf, Subpath;
    SubpathIs(name, rest);
    SetsFirst(w, o, root, pkg, "." + rest, Sides(o, name), i, k, p);
  }

  /**
   * Where no target gives a file the package is not answered, and is refused only where no set names a target at all.
   */
  lemma ExportsNone(w: World, o: Options, root: Path, pkg: Manifest, name: string, rest: string)
    requires PackageNameOf(name + rest) == name
    requires forall j :: 0 <= j < |Sides(o, name)| ==> GivesNothing(w, o, root, Named(w, pkg, "." + rest, Sides(o, name)[j]))
    ensures PackageExports(w, o, root, pkg, name + rest)
         == if o.throwNotExported && forall j :: 0 <= j < |Sides(o, name)| ==> Named(w, pkg, "." + rest, Sides(o, name)[j]) == []
            then Refused(root + "/package.json", "." + rest) else Missing
  {
    hide GivesNothing, ExportSets, PackageNameOf, Subpath;
    SubpathIs(name, rest);
    var (sides, sub) := (Sides(o, name), "." + rest);
    SetsNone(w, o, root, pkg, sub, sides);
    forall j | 0 <= j < |sides|
      ensures sides[j] in sides && Named(w, pkg, sub, sides[j]) == TargetsOf(w.exports(pkg, sub, sides[j]))
    {
    }
    if NamedIn(w, pkg, sub, sides) {
      var s :| s in sides && TargetsOf(w.exports(pkg, sub, s)) != [];
      var j :| 0 <= j < |sides| && sides[j] == s;
    }
  }
}
