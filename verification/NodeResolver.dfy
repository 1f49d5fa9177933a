/**
 * The resolver with everything it keeps: for one resolution, for a process, and for one window of a module's execution.
 * Each method answers what the tree alone answers, whatever is kept.
 */
module NodeResolver {
  import opened Wrappers
  import opened Strings
  import opened Paths
  import opened Resolution

  /** The stats of one window: paths found to exist. */
  class Window {
    var kinds: map<Path, Kind>

    constructor ()
      ensures kinds == map[]
    {
      kinds := map[];
    }
  }

  /** What a process keeps between its resolutions. */
  class Kept {
    var manifests: map<Path, Manifest>
    var missing: set<Path>
    var realPaths: map<Path, Path>
    var stubs: map<Digest, bool>
    var stats: Window?
    var carried: Option<(Path, Digest)>

    constructor ()
      ensures manifests == map[] && missing == {} && realPaths == map[] && stubs == map[] && stats == null
    {
      manifests, missing, realPaths, stubs, stats, carried := map[], {}, map[], map[], null, None;
    }

    /** Everything kept is what the tree answers. */
    ghost predicate Coherent(w: World)
      reads this, stats
    {
      && (forall p <- manifests :: ConfigAt(w, p) == Some(manifests[p]))
      && (forall p <- missing :: Missed(w, p))
      && (forall p <- realPaths :: realPaths[p] == RealOf(w, p))
      && (forall p :: w.digest(p).Some? && w.digest(p).value in stubs ==> stubs[w.digest(p).value] == ThrowingStub(w, p))
      && (stats != null ==> forall p <- stats.kinds :: stats.kinds[p] == w.kind(p))
    }
  }

  /** Files of one digest agree on being throwing stubs, as files do whose digest determines their readable bytes. */
  ghost predicate DigestsTell(w: World) {
    forall p, q :: w.digest(p).Some? && w.digest(p) == w.digest(q) ==> ThrowingStub(w, p) == ThrowingStub(w, q)
  }

  lemma {:induction false} FirstFileAppend(w: World, a: seq<Path>, b: seq<Path>)
    ensures FirstFile(w, a + b) == OrElse(FirstFile(w, a), FirstFile(w, b))
  {
    if a == [] {
      assert a + b == b;
    } else if !IsFile(w, a[0]) {
      assert (a + b)[1..] == a[1..] + b;
      FirstFileAppend(w, a[1..], b);
    }
  }

  lemma FirstOfSources(w: World, stem: Path, extensions: seq<string>)
    requires extensions != []
    ensures FirstFile(w, Sources(stem, extensions))
         == if IsFile(w, stem + extensions[0]) then Some(stem + extensions[0])
            else if IsFile(w, stem + "/index" + extensions[0]) then Some(stem + "/index" + extensions[0])
            else FirstFile(w, Sources(stem, extensions[1..]))
  {
    var two := [stem + extensions[0], stem + "/index" + extensions[0]];
    FirstFileAppend(w, two, Sources(stem, extensions[1..]));
    assert two[1..] == [two[1]] && two[1..][1..] == [];
  }

  lemma NamedNext(w: World, pkg: Manifest, subpath: string, sets: seq<Conditions>, k: nat)
    requires k < |sets|
    ensures NamedIn(w, pkg, subpath, sets[..k + 1])
       <==> NamedIn(w, pkg, subpath, sets[..k]) || TargetsOf(w.exports(pkg, subpath, sets[k])) != []
  {
    assert sets[..k + 1] == sets[..k] + [sets[k]];
  }

  class Resolver {
    const w: World
    const o: Options
    var manifests: map<Path, Option<Manifest>>
    var stubsInWindow: map<Window?, map<Path, bool>>
    var kept: Kept?
    var asked: map<Path, Kind>
    var digests: map<Path, Digest>
    var undigested: set<Path>

    constructor (w: World, o: Options)
      requires DigestsTell(w)
      ensures this.w == w && this.o == o && kept == null && Coherent()
    {
      this.w, this.o := w, o;
      manifests, stubsInWindow, kept, asked, digests, undigested := map[], map[], null, map[], map[], {};
    }

    ghost function Held(): set<object>
      reads this, kept
    {
      {this} + (if kept == null then {} else {kept} + if kept.stats == null then {} else {kept.stats})
    }

    /** What no step of a resolution changes. */
    twostate predicate Steady()
      reads this, kept
    {
      kept == old(kept) && Held() == old(Held()) && (kept != null ==> kept.carried == old(kept.carried))
    }

    ghost predicate Coherent()
      reads this, kept, if kept == null then {} else {kept.stats}
    {
      && DigestsTell(w)
      && (forall p <- manifests :: manifests[p] == ConfigAt(w, p))
      && (forall window <- stubsInWindow :: StubsCoherent(stubsInWindow[window]))
      && (forall p <- asked :: asked[p] == w.kind(p))
      && (forall p <- digests :: w.digest(p) == Some(digests[p]))
      && (kept != null ==> kept.Coherent(w))
    }

    ghost predicate StubsCoherent(byPath: map<Path, bool>) {
      forall p <- byPath :: byPath[p] == ThrowingStub(w, p)
    }

    /** What is carried to a load is the file answered, by its real path, with the digest of the file found. */
    ghost predicate Carried(carried: (Path, Digest), answer: Answer, found: Answer) {
      answer == Found(carried.0) && found.Found? && w.digest(found.path) == Some(carried.1)
    }

    /** A path's kind from the realm's kept answer, where it has one. */
    method KindSync(path: Path) returns (local: Option<Kind>)
      ensures local.Some? ==> local.value == w.kind(path) && local.value != Other
    {
      if * {
        return None;
      }
      return if w.kind(path) == Other then None else Some(w.kind(path));
    }

    /** A stat, which may carry a file's digest. */
    method Stat(path: Path) returns (kind: Kind, digest: Option<Digest>)
      ensures kind == w.kind(path)
      ensures digest.Some? ==> kind == File && digest == w.digest(path)
    {
      kind, digest := w.kind(path), None;
      if * {
        digest := if kind == File then w.digest(path) else None;
      }
    }

    method Ask(path: Path) returns (kind: Kind)
      requires Coherent()
      modifies Held()
      ensures Coherent() && Steady()
      ensures manifests == old(manifests) && asked == old(asked)
      ensures kind == w.kind(path)
    {
      if kept != null && kept.stats != null && path in kept.stats.kinds {
        return kept.stats.kinds[path];
      }
      var local := KindSync(path);
      if local.Some? {
        kind := local.value;
        if kind == File {
          undigested := undigested + {path};
        }
      } else {
        var digest;
        kind, digest := Stat(path);
        if digest.Some? {
          digests := digests[path := digest.value];
        }
      }
      if kind == File || kind == Directory {
        KeepStat(path);
      }
    }

    method KeepStat(path: Path)
      requires Coherent()
      modifies Held()
      ensures Coherent() && Steady()
      ensures manifests == old(manifests) && asked == old(asked)
    {
      if kept != null && kept.stats != null {
        kept.stats.kinds := kept.stats.kinds[path := w.kind(path)];
      }
    }

    method KindOf(path: Path) returns (kind: Kind)
      requires Coherent()
      modifies Held()
      ensures Coherent() && Steady()
      ensures manifests == old(manifests)
      ensures kind == w.kind(path) && path in asked
    {
      if path in asked {
        return asked[path];
      }
      kind := Ask(path);
      asked := asked[path := kind];
    }

    method DigestOf(path: Path) returns (digest: Option<Digest>)
      requires Coherent()
      modifies this
      ensures Coherent() && Steady()
      ensures digest.Some? ==> digest == w.digest(path)
    {
      if path in digests {
        return Some(digests[path]);
      }
      if path !in undigested {
        return None;
      }
      undigested := undigested - {path};
      digest := w.digest(path);
      if digest.Some? {
        digests := digests[path := digest.value];
      }
    }

    /** Read once for a digest, or once for a path while a window stands. */
    method IsThrowingStub(found: Path) returns (throwing: bool)
      requires Coherent()
      modifies Held()
      ensures Coherent() && Steady()
      ensures throwing == ThrowingStub(w, found)
    {
      var digest := DigestOf(found);
      var window := if kept == null then null else kept.stats;
      var byPath := if window != null && window in stubsInWindow then stubsInWindow[window] else map[];
      if found in byPath {
        assert StubsCoherent(byPath);
        return byPath[found];
      }
      if digest.Some? && kept != null && digest.value in kept.stubs {
        return kept.stubs[digest.value];
      }
      throwing := ThrowingStub(w, found);
      KeepStub(found, digest);
      if window != null {
        stubsInWindow := stubsInWindow[window := byPath[found := throwing]];
      }
    }

    method KeepStub(found: Path, digest: Option<Digest>)
      requires Coherent()
      requires digest.Some? ==> digest == w.digest(found)
      modifies Held()
      ensures Coherent() && Steady()
      ensures stubsInWindow == old(stubsInWindow)
    {
      if digest.Some? && kept != null {
        kept.stubs := kept.stubs[digest.value := ThrowingStub(w, found)];
      }
    }

    /** A directory's config: the process's, this resolution's, or the tree's. */
    method ManifestOf(directory: Path) returns (pkg: Option<Manifest>)
      requires Coherent()
      modifies Held()
      ensures Coherent() && Steady()
      ensures pkg == ConfigAt(w, ConfigPath(directory))
    {
      var path := ConfigPath(directory);
      if kept != null && path in kept.missing {
        return None;
      }
      if kept != null && path in kept.manifests {
        return Some(kept.manifests[path]);
      }
      if path in manifests {
        return manifests[path];
      }
      pkg := None;
      var missing := false;
      var kind := KindOf(path);
      if kind == File {
        match w.read(path) {
          case Text(text) =>
            if w.parse(text).Parsed? {
              pkg := Some(w.parse(text).m);
            }
          case Unread(absent) => missing := absent;
        }
      } else {
        missing := asked[path] == Directory || asked[path] == Absent;
      }
      KeepManifest(path, pkg, missing);
      manifests := manifests[path := pkg];
    }

    method KeepManifest(path: Path, pkg: Option<Manifest>, missing: bool)
      requires Coherent()
      requires pkg == ConfigAt(w, path) && (missing ==> Missed(w, path))
      modifies Held()
      ensures Coherent() && Steady()
      ensures manifests == old(manifests)
    {
      if missing && kept != null {
        kept.missing := kept.missing + {path};
      }
      if pkg.Some? && pkg.value.isObject && kept != null {
        kept.manifests := kept.manifests[path := pkg.value];
      }
    }

    // ---------------------------------------------------------------- the steps of the algorithm

    method FindExtended(stem: Path, extensions: seq<string>) returns (found: Option<Path>)
      requires Coherent()
      modifies Held()
      ensures Coherent() && Steady()
      ensures found == FirstFile(w, Extended(stem, extensions))
    {
      for k := 0 to |extensions|
        invariant Coherent() && Steady()
        invariant FirstFile(w, Extended(stem, extensions)) == FirstFile(w, Extended(stem, extensions[k..]))
      {
        var kind := KindOf(stem + extensions[k]);
        assert extensions[k..][1..] == extensions[k + 1..];
        if kind == File {
          return Some(stem + extensions[k]);
        }
      }
      return None;
    }

    method LoadAsFile(path: Path) returns (found: Option<Path>)
      requires Coherent()
      modifies Held()
      ensures Coherent() && Steady()
      ensures found == AsFile(w, o, path)
    {
      FirstFileAppend(w, [path] + Extended(path, o.extensions), Sibling(o, path));
      FirstFileAppend(w, [path], Extended(path, o.extensions));
      var kind := KindOf(path);
      if kind == File {
        return Some(path);
      }
      found := FindExtended(path, o.extensions);
      if found.Some? {
        return;
      }
      var (stem, extension) := Dotted(path);
      if extension in TYPESCRIPT_SIBLINGS && TYPESCRIPT_SIBLINGS[extension] in o.extensions {
        kind := KindOf(stem + TYPESCRIPT_SIBLINGS[extension]);
        if kind == File {
          return Some(stem + TYPESCRIPT_SIBLINGS[extension]);
        }
      }
    }

    method LoadIndex(path: Path) returns (found: Option<Path>)
      requires Coherent()
      modifies Held()
      ensures Coherent() && Steady()
      ensures found == Index(w, o, path)
    {
      found := FindExtended(path + "/index", o.extensions);
    }

    method FindSource(stem: Path, extensions: seq<string>) returns (found: Option<Path>)
      requires Coherent()
      modifies Held()
      ensures Coherent() && Steady()
      ensures found == FirstFile(w, Sources(stem, extensions))
    {
      for k := 0 to |extensions|
        invariant Coherent() && Steady()
        invariant FirstFile(w, Sources(stem, extensions)) == FirstFile(w, Sources(stem, extensions[k..]))
      {
        assert extensions[k..][1..] == extensions[k + 1..];
        FirstOfSources(w, stem, extensions[k..]);
        var kind := KindOf(stem + extensions[k]);
        if kind == File {
          return Some(stem + extensions[k]);
        }
        kind := KindOf(stem + "/index" + extensions[k]);
        if kind == File {
          return Some(stem + "/index" + extensions[k]);
        }
      }
      return None;
    }

    method FindSourceIn(base: Path, declared: string) returns (found: Option<Path>)
      requires Coherent()
      modifies Held()
      ensures Coherent() && Steady()
      ensures found == FirstFile(w, SourcesIn(o, base, declared))
    {
      FirstFileAppend(w, Sources(base + "/src/" + SourceStem(declared), SourceExtensions(o)),
                      Sources(base + "/" + SourceStem(declared), SourceExtensions(o)));
      found := FindSource(base + "/src/" + SourceStem(declared), SourceExtensions(o));
      if found.None? {
        found := FindSource(base + "/" + SourceStem(declared), SourceExtensions(o));
      }
    }

    method LoadWorkspaceSource(packageRoot: Path, declared: string) returns (found: Option<Path>)
      requires Coherent()
      modifies Held()
      ensures Coherent() && Steady()
      ensures found == WorkspaceSource(w, o, packageRoot, declared)
    {
      if o.members == {} {
        return None;
      }
      var root := MemberRoot(packageRoot);
      var linked := RealOf(w, root);
      if root !in o.members && linked !in o.members {
        return None;
      }
      FirstFileAppend(w, SourcesIn(o, root, declared), if linked == root then [] else SourcesIn(o, linked, declared));
      found := FindSourceIn(root, declared);
      if found.None? && linked != root {
        found := FindSourceIn(linked, declared);
      }
    }

    method LoadMain(path: Path, pkg: Manifest, field: string) returns (found: Option<Path>)
      requires Coherent()
      modifies Held()
      ensures Coherent() && Steady()
      ensures found == MainField(w, o, path, pkg, field)
    {
      if field !in pkg.fields || pkg.fields[field] == "" {
        return None;
      }
      var target := Join(path, pkg.fields[field]);
      found := LoadAsFile(target);
      if found.None? {
        found := LoadIndex(target);
      }
      if found.None? {
        found := LoadWorkspaceSource(path, pkg.fields[field]);
      }
    }

    method LoadAsDirectory(path: Path) returns (found: Option<Path>)
      requires Coherent()
      modifies Held()
      ensures Coherent() && Steady()
      ensures found == AsDirectory(w, o, path)
    {
      var kind := KindOf(path);
      if kind != Directory {
        return None;
      }
      var pkg := ManifestOf(path);
      if pkg.Some? {
        for k := 0 to |o.mainFields|
          invariant Coherent() && Steady()
          invariant MainFrom(w, o, path, pkg.value, o.mainFields) == MainFrom(w, o, path, pkg.value, o.mainFields[k..])
        {
          found := LoadMain(path, pkg.value, o.mainFields[k]);
          assert o.mainFields[k..][1..] == o.mainFields[k + 1..];
          if found.Some? {
            return;
          }
        }
      }
      found := LoadIndex(path);
    }

    method LoadTarget(packageRoot: Path, target: string) returns (found: Option<Path>)
      requires Coherent()
      modifies Held()
      ensures Coherent() && Steady()
      ensures found == ExportTarget(w, o, packageRoot, target)
    {
      found := LoadAsFile(Join(packageRoot, target));
      if found.None? {
        found := LoadWorkspaceSource(packageRoot, target);
      }
      if found.Some? && o.skipThrowingCjs && EndsWith(found.value, ".cjs") {
        var throwing := IsThrowingStub(found.value);
        if throwing {
          found := None;
        }
      }
    }

    method LoadTargets(packageRoot: Path, targets: seq<string>) returns (found: Option<Path>)
      requires Coherent()
      modifies Held()
      ensures Coherent() && Steady()
      ensures found == ExportTargets(w, o, packageRoot, targets)
    {
      for k := 0 to |targets|
        invariant Coherent() && Steady()
        invariant ExportTargets(w, o, packageRoot, targets) == ExportTargets(w, o, packageRoot, targets[k..])
      {
        found := LoadTarget(packageRoot, targets[k]);
        assert targets[k..][1..] == targets[k + 1..];
        if found.Some? {
          return;
        }
      }
      return None;
    }

    method LoadPackageExports(packageRoot: Path, pkg: Manifest, specifier: string) returns (answer: Answer)
      requires Coherent()
      modifies Held()
      ensures Coherent() && Steady()
      ensures answer == PackageExports(w, o, packageRoot, pkg, specifier)
    {
      var name := PackageNameOf(specifier);
      var subpath := Subpath(specifier, name);
      var sets := SetsOf(o, name);
      var named := false;
      for k := 0 to |sets|
        invariant Coherent() && Steady()
        invariant named <==> NamedIn(w, pkg, subpath, sets[..k])
        invariant ExportSets(w, o, packageRoot, pkg, subpath, sets) == ExportSets(w, o, packageRoot, pkg, subpath, sets[k..])
      {
        var targets := TargetsOf(w.exports(pkg, subpath, sets[k]));
        NamedNext(w, pkg, subpath, sets, k);
        if targets != [] {
          named := true;
        }
        var found := LoadTargets(packageRoot, targets);
        assert sets[k..][1..] == sets[k + 1..];
        if found.Some? {
          return Found(found.value);
        }
      }
      assert sets[..|sets|] == sets;
      if o.throwNotExported && !named {
        return Refused(packageRoot + "/package.json", subpath);
      }
      return Missing;
    }

    method LoadFromNodeModules(nodeModules: Path, specifier: string) returns (answer: Answer)
      requires Coherent()
      modifies Held()
      ensures Coherent() && Steady()
      ensures answer == FromNodeModules(w, o, nodeModules, specifier)
    {
      var name := PackageNameOf(specifier);
      var packageRoot := nodeModules + "/" + name;
      var kind := KindOf(packageRoot);
      if kind != Directory && specifier != name {
        return Missing;
      }
      var pkg := None;
      if kind == Directory {
        pkg := ManifestOf(packageRoot);
      }
      if pkg.Some? && pkg.value.exportsMap.Some? {
        answer := LoadPackageExports(packageRoot, pkg.value, specifier);
        return;
      }
      var found := LoadAsFile(nodeModules + "/" + specifier);
      if found.None? {
        found := LoadAsDirectory(nodeModules + "/" + specifier);
      }
      return Answered(found);
    }

    /** The walk both a package's own name and its imports map make: up to the first config met. */
    method NearestManifest(from: Path) returns (near: Option<(Path, Manifest)>)
      requires Coherent()
      modifies Held()
      ensures Coherent() && Steady()
      ensures near == Nearest(w, from)
    {
      var directory := from;
      while directory != "/" && !InNodeModules(directory)
        invariant Coherent() && Steady()
        invariant Nearest(w, from) == Nearest(w, directory)
        decreases Depth(directory)
      {
        var pkg := ManifestOf(directory);
        if pkg.Some? {
          return Some((directory, pkg.value));
        }
        directory := Parent(directory);
      }
      return None;
    }

    method LoadPackageSelf(specifier: string, from: Path) returns (answer: Answer)
      requires Coherent()
      modifies Held()
      ensures Coherent() && Steady()
      ensures answer == PackageSelf(w, o, specifier, from)
    {
      var near := NearestManifest(from);
      if near.Some? && near.value.1.name == Some(PackageNameOf(specifier)) && near.value.1.exportsMap.Some? {
        answer := LoadPackageExports(near.value.0, near.value.1, specifier);
        return;
      }
      return Missing;
    }

    method LoadWalkingUp(specifier: string, from: Path) returns (answer: Answer)
      requires Coherent()
      modifies Held()
      ensures Coherent() && Steady()
      ensures answer == WalkUp(w, o, specifier, from)
    {
      var directory := from;
      while true
        invariant Coherent() && Steady()
        invariant WalkUp(w, o, specifier, from) == WalkUp(w, o, specifier, directory)
        decreases Depth(directory)
      {
        if !InNodeModules(directory) {
          var nodeModules := Under(directory, "node_modules");
          var kind := KindOf(nodeModules);
          if kind == Directory {
            answer := LoadFromNodeModules(nodeModules, specifier);
            if answer != Missing {
              return;
            }
          }
        }
        if directory == "/" {
          break;
        }
        directory := Parent(directory);
      }
      answer := LoadFromRoots(specifier);
    }

    method LoadFromRoots(specifier: string) returns (answer: Answer)
      requires Coherent()
      modifies Held()
      ensures Coherent() && Steady()
      ensures answer == Roots(w, o, specifier, o.globalRoots)
    {
      for k := 0 to |o.globalRoots|
        invariant Coherent() && Steady()
        invariant Roots(w, o, specifier, o.globalRoots) == Roots(w, o, specifier, o.globalRoots[k..])
      {
        assert o.globalRoots[k..][1..] == o.globalRoots[k + 1..];
        var kind := KindOf(o.globalRoots[k]);
        if kind == Directory {
          answer := LoadFromNodeModules(o.globalRoots[k], specifier);
          if answer != Missing {
            return;
          }
        }
      }
      return Missing;
    }

    method ResolvePlain(specifier: string, from: Path) returns (answer: Answer)
      requires Coherent()
      modifies Held()
      ensures Coherent() && Steady()
      ensures answer == Plain(w, o, specifier, from)
    {
      if IsRelative(specifier) {
        var found := LoadAsFile(Join(from, specifier));
        if found.None? {
          found := LoadAsDirectory(Join(from, specifier));
        }
        return Answered(found);
      }
      answer := LoadPackageSelf(specifier, from);
      if answer == Missing {
        answer := LoadWalkingUp(specifier, from);
      }
    }

    method ResolveCached(depth: nat, specifier: string, from: Path) returns (answer: Answer)
      requires Coherent()
      modifies Held()
      ensures Coherent() && Steady()
      ensures answer == Resolved(depth, w, o, specifier, from)
      decreases depth, 3
    {
      if IsImport(specifier) {
        answer := LoadPackageImports(depth, specifier, from);
      } else {
        answer := ResolvePlain(specifier, from);
      }
    }

    method LoadPackageImports(depth: nat, specifier: string, from: Path) returns (answer: Answer)
      requires Coherent()
      modifies Held()
      ensures Coherent() && Steady()
      ensures answer == PackageImports(depth, w, o, specifier, from)
      decreases depth, 2
    {
      var near := NearestManifest(from);
      if near.None? || near.value.1.importsMap.None? {
        return Missing;
      }
      var (directory, pkg) := near.value;
      for k := 0 to |o.conditionSets|
        invariant Coherent() && Steady()
        invariant ImportSets(depth, w, o, directory, pkg, specifier, o.conditionSets)
               == ImportSets(depth, w, o, directory, pkg, specifier, o.conditionSets[k..])
      {
        answer := LoadImportTargets(depth, directory, TargetsOf(w.imports(pkg, specifier, o.conditionSets[k])));
        assert o.conditionSets[k..][1..] == o.conditionSets[k + 1..];
        if answer != Missing {
          return;
        }
      }
      return Missing;
    }

    method LoadImportTargets(depth: nat, directory: Path, targets: seq<string>) returns (answer: Answer)
      requires Coherent()
      modifies Held()
      ensures Coherent() && Steady()
      ensures answer == ImportTargets(depth, w, o, directory, targets)
      decreases depth, 1
    {
      for k := 0 to |targets|
        invariant Coherent() && Steady()
        invariant ImportTargets(depth, w, o, directory, targets) == ImportTargets(depth, w, o, directory, targets[k..])
      {
        answer := LoadImportTarget(depth, directory, targets[k]);
        assert targets[k..][1..] == targets[k + 1..];
        if answer != Missing {
          return;
        }
      }
      return Missing;
    }

    method LoadImportTarget(depth: nat, directory: Path, target: string) returns (answer: Answer)
      requires Coherent()
      modifies Held()
      ensures Coherent() && Steady()
      ensures answer == ImportTarget(depth, w, o, directory, target)
      decreases depth, 0
    {
      if StartsWith(target, ".") || StartsWith(target, "/") {
        var found := LoadAsFile(Join(directory, target));
        return Answered(found);
      } else if !IsImport(target) {
        answer := ResolvePlain(target, directory);
      } else if depth == 0 {
        return Deep;
      } else {
        answer := ResolveCached(depth - 1, target, directory);
      }
    }

    // ---------------------------------------------------------------- a resolution

    method RealPath(found: Path) returns (path: Path)
      requires Coherent()
      modifies Held()
      ensures Coherent() && Steady()
      ensures path == RealOf(w, found)
    {
      path := found;
      if w.links.Some? {
        if kept != null && found in kept.realPaths {
          return kept.realPaths[found];
        }
        if w.links.value(found).Some? {
          path := w.links.value(found).value;
          if kept != null {
            kept.realPaths := kept.realPaths[found := path];
          }
        }
      }
    }

    /** What one resolution was answered is not kept for the next. */
    method Begin(keeping: Kept?)
      requires Coherent() && kept == null
      requires keeping != null ==> keeping.Coherent(w)
      modifies this, keeping
      ensures Coherent() && kept == keeping
      ensures keeping != null ==> keeping.carried == None && keeping.stats == old(keeping.stats)
    {
      manifests, asked, digests, undigested := map[], map[], map[], {};
      kept := keeping;
      if keeping != null {
        keeping.carried := None;
      }
    }

    /** Whatever the process keeps, the answer is the tree's, and what it keeps stays the tree's. */
    method Resolve(depth: nat, specifier: string, from: Path, keeping: Kept?) returns (answer: Answer)
      requires Coherent() && kept == null
      requires keeping != null ==> keeping.Coherent(w)
      modifies this, keeping, if keeping == null then null else keeping.stats
      ensures Coherent() && kept == null
      ensures keeping != null ==> keeping.Coherent(w) && keeping.stats == old(keeping.stats)
      ensures answer == AnswerOf(depth, w, o, specifier, from)
      ensures keeping != null && keeping.carried.Some? ==>
                Carried(keeping.carried.value, answer, Resolved(depth, w, o, specifier, from))
    {
      Begin(keeping);
      answer := ResolveKeeping(depth, specifier, from);
      kept := null;
    }

    method ResolveKeeping(depth: nat, specifier: string, from: Path) returns (answer: Answer)
      requires Coherent() && (kept != null ==> kept.carried == None)
      modifies Held()
      ensures Coherent() && kept == old(kept) && Held() == old(Held())
      ensures answer == AnswerOf(depth, w, o, specifier, from)
      ensures kept != null && kept.carried.Some? ==>
                Carried(kept.carried.value, answer, Resolved(depth, w, o, specifier, from))
    {
      answer := ResolveCached(depth, specifier, from);
      if answer.Found? {
        var digest := DigestOf(answer.path);
        var path := RealPath(answer.path);
        if digest.Some? && kept != null {
          kept.carried := Some((path, digest.value));
        }
        answer := Found(path);
      }
    }
  }

  /** How a process's resolutions follow one another: its own stats window may open or close before one. */
  datatype Moment = SameWindow | OpenWindow | CloseWindow

  datatype Request = Request(specifier: string, from: Path, keeps: bool, moment: Moment)

  method ResolveNext(resolver: Resolver, process: Kept, depth: nat, request: Request) returns (answer: Answer)
    requires resolver.Coherent() && resolver.kept == null && process.Coherent(resolver.w)
    modifies resolver, process, process.stats
    ensures resolver.Coherent() && resolver.kept == null && process.Coherent(resolver.w)
    ensures process.stats == old(process.stats) || (process.stats != null ==> fresh(process.stats))
    ensures answer == AnswerOf(depth, resolver.w, resolver.o, request.specifier, request.from)
  {
    if request.moment == OpenWindow {
      process.stats := new Window();
    } else if request.moment == CloseWindow {
      process.stats := null;
    }
    answer := resolver.Resolve(depth, request.specifier, request.from, if request.keeps then process else null);
  }

  /** Any run of resolutions, some kept for a process and some not, is answered request by request from the tree. */
  method ResolveAll(w: World, o: Options, depth: nat, requests: seq<Request>) returns (answers: seq<Answer>)
    requires DigestsTell(w)
    ensures |answers| == |requests|
    ensures forall i :: 0 <= i < |requests| ==> answers[i] == AnswerOf(depth, w, o, requests[i].specifier, requests[i].from)
  {
    var resolver := new Resolver(w, o);
    var process := new Kept();
    answers := [];
    for k := 0 to |requests|
      invariant fresh(resolver) && fresh(process) && (process.stats != null ==> fresh(process.stats))
      invariant resolver.w == w && resolver.o == o && resolver.Coherent() && resolver.kept == null && process.Coherent(w)
      invariant |answers| == k
      invariant forall i :: 0 <= i < k ==> answers[i] == AnswerOf(depth, w, o, requests[i].specifier, requests[i].from)
    {
      var answer := ResolveNext(resolver, process, depth, requests[k]);
      answers := answers + [answer];
    }
  }
}
