/** Which path is the answer: each step of a resolution against the names it tries and their order. */
module ResolutionOrder {
  import opened Wrappers
  import opened Strings
  import opened Paths
  import opened PathLaws
  import opened Resolution
  import opened ResolutionLaws

  // ------------------------------------------------------------------ files and directories

  /** The file at the first of these extensions that gives one. */
  ghost predicate FirstWith(w: World, stem: Path, extensions: seq<string>, p: Path) {
    exists k :: 0 <= k < |extensions| && ExtensionAt(w, stem, extensions, k) && p == stem + extensions[k]
  }

  ghost predicate ExtensionAt(w: World, stem: Path, extensions: seq<string>, k: nat)
    requires k < |extensions|
  {
    IsFile(w, stem + extensions[k]) && forall j :: 0 <= j < k ==> !IsFile(w, stem + extensions[j])
  }

  /** A JavaScript name and the TypeScript one beside it. */
  ghost predicate Pair(js: string, ts: string) {
    || (js == ".js" && ts == ".ts") || (js == ".jsx" && ts == ".tsx")
    || (js == ".mjs" && ts == ".mts") || (js == ".cjs" && ts == ".cts")
  }

  ghost predicate SiblingOf(o: Options, path: Path, p: Path) {
    exists stem, js, ts :: Pair(js, ts) && path == stem + js && p == stem + ts && ts in o.extensions
  }

  /** The file a path names: itself, or the first extension, or the TypeScript source beside it. */
  ghost predicate FileFor(w: World, o: Options, path: Path, p: Path) {
    if IsFile(w, path) then p == path
    else if exists q :: FirstWith(w, path, o.extensions, q) then FirstWith(w, path, o.extensions, p)
    else SiblingOf(o, path, p) && IsFile(w, p)
  }

  lemma {:induction false} ExtendedFirst(w: World, stem: Path, extensions: seq<string>)
    ensures forall p :: FirstFile(w, Extended(stem, extensions)) == Some(p) <==> FirstWith(w, stem, extensions, p)
  {
    if extensions != [] {
      ExtendedFirst(w, stem, extensions[1..]);
      var all, rest := Extended(stem, extensions), Extended(stem, extensions[1..]);
      assert all[0] == stem + extensions[0] && all[1..] == rest;
      forall p ensures FirstFile(w, all) == Some(p) <==> FirstWith(w, stem, extensions, p) {
        if IsFile(w, all[0]) {
          assert ExtensionAt(w, stem, extensions, 0);
        } else {
          if FirstWith(w, stem, extensions, p) {
            var k :| 0 <= k < |extensions| && ExtensionAt(w, stem, extensions, k) && p == stem + extensions[k];
            assert k > 0;
            assert ExtensionAt(w, stem, extensions[1..], k - 1) by {
              forall j | 0 <= j < k - 1 ensures !IsFile(w, stem + extensions[1..][j]) {
                assert extensions[1..][j] == extensions[j + 1];
              }
            }
          }
          if FirstWith(w, stem, extensions[1..], p) {
            var k :| 0 <= k < |extensions[1..]| && ExtensionAt(w, stem, extensions[1..], k) && p == stem + extensions[1..][k];
            assert ExtensionAt(w, stem, extensions, k + 1) by {
              forall j | 0 <= j < k + 1 ensures !IsFile(w, stem + extensions[j]) {
                if j > 0 { assert extensions[1..][j - 1] == extensions[j]; }
              }
            }
          }
        }
      }
    }
  }

  lemma {:induction false} FirstOfTwo(w: World, a: seq<Path>, b: seq<Path>)
    ensures FirstFile(w, a + b) == OrElse(FirstFile(w, a), FirstFile(w, b))
  {
    if a == [] {
      assert a + b == b;
    } else {
      assert (a + b)[0] == a[0] && (a + b)[1..] == a[1..] + b;
      FirstOfTwo(w, a[1..], b);
    }
  }

  lemma DottedAt(stem: Path, extension: string)
    requires extension != "" && extension[0] == '.' && Lacks(extension[1..], '.') && Lacks(extension, '/')
    ensures Dotted(stem + extension) == (stem, extension)
  {
    var path, rest := stem + extension, extension[1..];
    assert path == stem + ['.'] + rest;
    LastIndexIs(stem, '.', rest);
    assert forall k :: |stem| <= k < |path| ==> path[k] == extension[k - |stem|];
    assert path[..|stem|] == stem && path[|stem|..] == extension;
  }

  lemma PairsAre(js: string, ts: string)
    ensures Pair(js, ts) <==> js in TYPESCRIPT_SIBLINGS && TYPESCRIPT_SIBLINGS[js] == ts
    ensures Pair(js, ts) ==> js != "" && js[0] == '.' && Lacks(js[1..], '.') && Lacks(js, '/')
  {
  }

  lemma SiblingIs(o: Options, path: Path, p: Path)
    ensures |Sibling(o, path)| <= 1 && (p in Sibling(o, path) <==> SiblingOf(o, path, p))
  {
    hide Pair, Lacks, Dotted;
    var (stem, js) := Dotted(path);
    if js in TYPESCRIPT_SIBLINGS {
      PairsAre(js, TYPESCRIPT_SIBLINGS[js]);
    }
    if SiblingOf(o, path, p) {
      var stem', js', ts :| Pair(js', ts) && path == stem' + js' && p == stem' + ts && ts in o.extensions;
      PairsAre(js', ts);
      DottedAt(stem', js');
    }
  }

  /** A path is answered by itself, else by the first extension, else by its TypeScript source, and by nothing else. */
  lemma FileOrder(w: World, o: Options, path: Path)
    ensures forall p :: AsFile(w, o, path) == Some(p) <==> FileFor(w, o, path, p)
  {
    var extended, sibling := Extended(path, o.extensions), Sibling(o, path);
    FirstOfTwo(w, [path] + extended, sibling);
    FirstOfTwo(w, [path], extended);
    ExtendedFirst(w, path, o.extensions);
    forall p ensures |sibling| <= 1 && (p in sibling <==> SiblingOf(o, path, p)) { SiblingIs(o, path, p); }
    assert FirstFile(w, [path]) == if IsFile(w, path) then Some(path) else None;
    assert FirstFile(w, sibling) == if sibling != [] && IsFile(w, sibling[0]) then Some(sibling[0]) else None;
    assert (exists q :: FirstWith(w, path, o.extensions, q)) <==> FirstFile(w, extended).Some? by {
      if FirstFile(w, extended).Some? { assert FirstWith(w, path, o.extensions, FirstFile(w, extended).value); }
    }
  }

  /** A directory without a main is answered by the first extension of its index. */
  lemma IndexOrder(w: World, o: Options, path: Path)
    ensures forall p :: Index(w, o, path) == Some(p) <==> FirstWith(w, path + "/index", o.extensions, p)
  {
    ExtendedFirst(w, path + "/index", o.extensions);
  }

  /** Whether a main field leads nowhere: it is absent or empty, or its target is no file, index or member's source. */
  ghost predicate LeadsNowhere(w: World, o: Options, path: Path, pkg: Manifest, field: string) {
    field in pkg.fields && pkg.fields[field] != "" ==>
      var target := Join(path, pkg.fields[field]);
      && AsFile(w, o, target) == None && Index(w, o, target) == None && WorkspaceSource(w, o, path, pkg.fields[field]) == None
  }

  /**
   * The first main field that leads somewhere answers: as a file before an index, and that before a member's source.
   */
  lemma {:induction false} MainOrder(w: World, o: Options, path: Path, pkg: Manifest, fields: seq<string>, k: nat)
    requires k < |fields| && forall j :: 0 <= j < k ==> LeadsNowhere(w, o, path, pkg, fields[j])
    requires fields[k] in pkg.fields && !LeadsNowhere(w, o, path, pkg, fields[k])
    ensures var value := pkg.fields[fields[k]];
      var (file, index) := (AsFile(w, o, Join(path, value)), Index(w, o, Join(path, value)));
      MainFrom(w, o, path, pkg, fields)
        == if file.Some? then file else if index.Some? then index else WorkspaceSource(w, o, path, value)
    decreases k
  {
    hide AsFile, Index, WorkspaceSource;
    if k > 0 {
      assert LeadsNowhere(w, o, path, pkg, fields[0]);
      forall j | 0 <= j < k - 1 ensures LeadsNowhere(w, o, path, pkg, fields[1..][j]) {
        assert fields[1..][j] == fields[j + 1];
      }
      MainOrder(w, o, path, pkg, fields[1..], k - 1);
    }
  }

  lemma {:induction false} NoMain(w: World, o: Options, path: Path, pkg: Manifest, fields: seq<string>)
    requires forall k :: 0 <= k < |fields| ==> LeadsNowhere(w, o, path, pkg, fields[k])
    ensures MainFrom(w, o, path, pkg, fields) == None
  {
    hide AsFile, Index, WorkspaceSource;
    if fields != [] {
      assert LeadsNowhere(w, o, path, pkg, fields[0]);
      NoMain(w, o, path, pkg, fields[1..]);
    }
  }

  /** A directory's config is the `package.json` in it: a file whose text is JSON that is not falsy. */
  ghost predicate ConfigIn(w: World, directory: Path, pkg: Manifest) {
    var path := if directory == "/" then "/package.json" else directory + "/package.json";
    w.kind(path) == File && w.read(path).Text? && w.parse(w.read(path).text) == Parsed(pkg)
  }

  lemma ConfigIs(w: World, directory: Path)
    ensures forall pkg :: ConfigAt(w, ConfigPath(directory)) == Some(pkg) <==> ConfigIn(w, directory, pkg)
  {
    assert "/" + "package.json" == "/package.json";
    assert ConfigPath(directory) == if directory == "/" then "/package.json" else directory + "/package.json";
  }

  /** The main of a directory's config comes before its index. */
  lemma MainBeforeIndex(w: World, o: Options, path: Path, pkg: Manifest, k: nat)
    requires IsDirectory(w, path) && ConfigIn(w, path, pkg)
    requires k < |o.mainFields| && forall j :: 0 <= j < k ==> LeadsNowhere(w, o, path, pkg, o.mainFields[j])
    requires o.mainFields[k] in pkg.fields && pkg.fields[o.mainFields[k]] != ""
    requires IsFile(w, Join(path, pkg.fields[o.mainFields[k]]))
    ensures AsDirectory(w, o, path) == Some(Join(path, pkg.fields[o.mainFields[k]]))
  {
    ConfigIs(w, path);
    FileOrder(w, o, Join(path, pkg.fields[o.mainFields[k]]));
    assert FileFor(w, o, Join(path, pkg.fields[o.mainFields[k]]), Join(path, pkg.fields[o.mainFields[k]]));
    hide AsFile, Index, WorkspaceSource, Join, ConfigAt, FileFor;
    MainOrder(w, o, path, pkg, o.mainFields, k);
  }

  /** A directory is answered by its index where no config in it has a main that leads anywhere. */
  lemma IndexWhereNoMain(w: World, o: Options, path: Path)
    requires forall pkg, k :: ConfigIn(w, path, pkg) && 0 <= k < |o.mainFields| ==>
               LeadsNowhere(w, o, path, pkg, o.mainFields[k])
    ensures AsDirectory(w, o, path) == if IsDirectory(w, path) then Index(w, o, path) else None
  {
    ConfigIs(w, path);
    var pkg := ConfigAt(w, ConfigPath(path));
    if pkg.Some? {
      assert ConfigIn(w, path, pkg.value);
      NoMain(w, o, path, pkg.value, o.mainFields);
    }
  }

  // ------------------------------------------------------------------ paths

  /** A specifier is a path exactly where its first part is `.`, `..` or, after a leading `/`, empty. */
  lemma RelativeIs(first: string, rest: string)
    requires Lacks(first, '/')
    ensures IsRelative(first + "/" + rest) <==> first in {"", ".", ".."}
    ensures IsRelative(first) <==> first in {".", ".."}
    ensures IsImport(first) <==> first != "" && first[0] == '#'
  {
    var s := first + "/" + rest;
    assert s[|first|] == '/' && s[..|first|] == first;
    assert forall k :: 0 <= k < |first| ==> s[k] == first[k];
    if StartsWith(s, "./") { assert s[0] == '.' && s[1] == '/'; }
    if StartsWith(s, "../") { assert s[0] == '.' && s[1] == '.' && s[2] == '/'; }
    if StartsWith(s, "/") { assert s[0] == '/'; }
    if first == "" { assert s[..1] == "/"; }
    if first == "." { assert s[..2] == "./"; }
    if first == ".." { assert s[..3] == "../"; }
  }

  /** A relative specifier is answered as a file and, where it is none, as a directory. */
  lemma PathAnswered(depth: nat, w: World, o: Options, specifier: string, from: Path)
    requires IsRelative(specifier)
    ensures var path := Join(from, specifier);
      && (AsFile(w, o, path).Some? ==>
            AnswerOf(depth, w, o, specifier, from) == Found(RealOf(w, AsFile(w, o, path).value)))
      && (AsFile(w, o, path).None? && AsDirectory(w, o, path).Some? ==>
            AnswerOf(depth, w, o, specifier, from) == Found(RealOf(w, AsDirectory(w, o, path).value)))
      && (AsFile(w, o, path).None? && AsDirectory(w, o, path).None? ==> AnswerOf(depth, w, o, specifier, from) == Missing)
  {
    assert specifier[0] in {'.', '/'};
    hide AsFile, AsDirectory, Join;
  }

  /** `../` asked from a directory is what `./` gives asked from the one above it. */
  lemma UpIsThereBefore(depth: nat, w: World, o: Options, d: Path, name: string, rest: string)
    requires Part(name) && !StartsWith(rest, "/")
    ensures AnswerOf(depth, w, o, "../" + rest, Under(d, name)) == AnswerOf(depth, w, o, "./" + rest, d)
  {
    JoinUp(d, name, rest);
    JoinHere(d, rest);
    hide AsFile, AsDirectory, Join;
  }

  /** A file in the directory above is found there. */
  lemma FoundAbove(depth: nat, w: World, o: Options, d: Path, name: string, file: string)
    requires Normal(d) && Part(name) && Part(file) && IsFile(w, Under(d, file))
    ensures AnswerOf(depth, w, o, "../" + file, Under(d, name)) == Found(RealOf(w, Under(d, file)))
  {
    assert file[0] != '/';
    JoinUp(d, name, file);
    JoinName(d, file);
    ExactPathWins(w, o, Under(d, file));
    hide AsFile, AsDirectory, Join;
    PathAnswered(depth, w, o, "../" + file, Under(d, name));
  }

  /** Going into a directory and asking there is asking for the longer name. */
  lemma DownIsThereToo(depth: nat, w: World, o: Options, d: Path, name: string, rest: string)
    requires Part(name) && !StartsWith(rest, "/")
    ensures AnswerOf(depth, w, o, "./" + name + "/" + rest, d) == AnswerOf(depth, w, o, "./" + rest, Under(d, name))
  {
    assert "./" + name + "/" + rest == "./" + (name + "/" + rest);
    assert (name + "/" + rest)[0] == name[0] != '/';
    JoinHere(d, name + "/" + rest);
    JoinDown(d, name, rest);
    JoinHere(Under(d, name), rest);
    hide AsFile, AsDirectory, Join;
  }

  /** An absolute specifier is answered alike from everywhere. */
  lemma AbsoluteFromAnywhere(depth: nat, w: World, o: Options, path: string, from: Path, other: Path)
    requires StartsWith(path, "/")
    ensures AnswerOf(depth, w, o, path, from) == AnswerOf(depth, w, o, path, other)
  {
    AbsoluteIgnoresBase(from, other, path);
    hide AsFile, AsDirectory, Join;
  }
}
