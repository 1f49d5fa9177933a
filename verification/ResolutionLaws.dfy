/** What a resolution's answer promises, and when the walk through imports maps ends. */
module ResolutionLaws {
  import opened Wrappers
  import opened Strings
  import opened Paths
  import opened Resolution

  /** What is answered, before links are followed, is a file of the tree. */
  lemma {:induction false} FoundIsAFile(depth: nat, w: World, o: Options, specifier: string, from: Path)
    ensures var a := Resolved(depth, w, o, specifier, from); a.Found? ==> IsFile(w, a.path)
    decreases depth
  {
    if IsImport(specifier) {
      var near := Nearest(w, from);
      if near.Some? && near.value.1.importsMap.Some? {
        ImportSetsFile(depth, w, o, near.value.0, near.value.1, specifier, o.conditionSets);
      }
    } else {
      PlainFile(w, o, specifier, from);
    }
  }

  lemma {:induction false} ImportSetsFile(depth: nat, w: World, o: Options, directory: Path, pkg: Manifest,
                                          specifier: string, sets: seq<Conditions>)
    ensures var a := ImportSets(depth, w, o, directory, pkg, specifier, sets); a.Found? ==> IsFile(w, a.path)
    decreases depth, 2, |sets|
  {
    if sets != [] {
      ImportTargetsFile(depth, w, o, directory, TargetsOf(w.imports(pkg, specifier, sets[0])));
      ImportSetsFile(depth, w, o, directory, pkg, specifier, sets[1..]);
    }
  }

  lemma {:induction false} ImportTargetsFile(depth: nat, w: World, o: Options, directory: Path, targets: seq<string>)
    ensures var a := ImportTargets(depth, w, o, directory, targets); a.Found? ==> IsFile(w, a.path)
    decreases depth, 1, |targets|
  {
    if targets != [] {
      FirstFileIs(w, [Join(directory, targets[0])] + Extended(Join(directory, targets[0]), o.extensions)
                       + Sibling(o, Join(directory, targets[0])));
      PlainFile(w, o, targets[0], directory);
      if depth > 0 {
        FoundIsAFile(depth - 1, w, o, targets[0], directory);
      }
      ImportTargetsFile(depth, w, o, directory, targets[1..]);
    }
  }

  lemma {:induction false} FirstFileIs(w: World, candidates: seq<Path>)
    ensures FirstFile(w, candidates).Some? ==> IsFile(w, FirstFile(w, candidates).value)
    ensures FirstFile(w, candidates).Some? ==> FirstFile(w, candidates).value in candidates
    ensures FirstFile(w, candidates).None? <==> forall c <- candidates :: !IsFile(w, c)
  {
    if candidates != [] {
      FirstFileIs(w, candidates[1..]);
      assert candidates == [candidates[0]] + candidates[1..];
    }
  }

  lemma AsFileIs(w: World, o: Options, path: Path)
    ensures var a := AsFile(w, o, path); a.Some? ==> IsFile(w, a.value)
    ensures var a := Index(w, o, path); a.Some? ==> IsFile(w, a.value)
  {
    FirstFileIs(w, [path] + Extended(path, o.extensions) + Sibling(o, path));
    FirstFileIs(w, Extended(path + "/index", o.extensions));
  }

  lemma SourceIs(w: World, o: Options, root: Path, declared: string)
    ensures var a := WorkspaceSource(w, o, root, declared); a.Some? ==> IsFile(w, a.value)
  {
    var base := MemberRoot(root);
    var linked := RealOf(w, base);
    FirstFileIs(w, SourcesIn(o, base, declared) + if linked == base then [] else SourcesIn(o, linked, declared));
  }

  lemma {:induction false} MainIs(w: World, o: Options, path: Path, pkg: Manifest, fields: seq<string>)
    ensures var a := MainFrom(w, o, path, pkg, fields); a.Some? ==> IsFile(w, a.value)
  {
    if fields != [] {
      if fields[0] in pkg.fields {
        AsFileIs(w, o, Join(path, pkg.fields[fields[0]]));
        SourceIs(w, o, path, pkg.fields[fields[0]]);
      }
      MainIs(w, o, path, pkg, fields[1..]);
    }
  }

  lemma DirectoryIs(w: World, o: Options, path: Path)
    ensures var a := AsDirectory(w, o, path); a.Some? ==> IsFile(w, a.value)
  {
    AsFileIs(w, o, path);
    var pkg := ConfigAt(w, ConfigPath(path));
    if pkg.Some? { MainIs(w, o, path, pkg.value, o.mainFields); }
  }

  lemma {:induction false} TargetsAre(w: World, o: Options, root: Path, targets: seq<string>)
    ensures var a := ExportTargets(w, o, root, targets); a.Some? ==> IsFile(w, a.value)
  {
    if targets != [] {
      AsFileIs(w, o, Join(root, targets[0]));
      SourceIs(w, o, root, targets[0]);
      TargetsAre(w, o, root, targets[1..]);
    }
  }

  lemma {:induction false} SetsAre(w: World, o: Options, root: Path, pkg: Manifest, subpath: string, sets: seq<Conditions>)
    ensures var a := ExportSets(w, o, root, pkg, subpath, sets); a.Some? ==> IsFile(w, a.value)
  {
    if sets != [] {
      TargetsAre(w, o, root, TargetsOf(w.exports(pkg, subpath, sets[0])));
      SetsAre(w, o, root, pkg, subpath, sets[1..]);
    }
  }

  lemma ExportsAre(w: World, o: Options, root: Path, pkg: Manifest, specifier: string)
    ensures var a := PackageExports(w, o, root, pkg, specifier); a.Found? ==> IsFile(w, a.path)
    ensures PackageExports(w, o, root, pkg, specifier) != Deep
  {
    var name := PackageNameOf(specifier);
    SetsAre(w, o, root, pkg, Subpath(specifier, name), SetsOf(o, name));
  }

  lemma ModulesFile(w: World, o: Options, nodeModules: Path, specifier: string)
    ensures var a := FromNodeModules(w, o, nodeModules, specifier); a != Deep && (a.Found? ==> IsFile(w, a.path))
  {
    var root := nodeModules + "/" + PackageNameOf(specifier);
    var pkg := ConfigAt(w, ConfigPath(root));
    if pkg.Some? { ExportsAre(w, o, root, pkg.value, specifier); }
    AsFileIs(w, o, nodeModules + "/" + specifier);
    DirectoryIs(w, o, nodeModules + "/" + specifier);
  }

  lemma {:induction false} RootsFile(w: World, o: Options, specifier: string, roots: seq<Path>)
    ensures var a := Roots(w, o, specifier, roots); a != Deep && (a.Found? ==> IsFile(w, a.path))
  {
    if roots != [] {
      ModulesFile(w, o, roots[0], specifier);
      RootsFile(w, o, specifier, roots[1..]);
    }
  }

  lemma {:induction false} WalkFile(w: World, o: Options, specifier: string, directory: Path)
    ensures var a := WalkUp(w, o, specifier, directory); a != Deep && (a.Found? ==> IsFile(w, a.path))
    decreases Depth(directory)
  {
    ModulesFile(w, o, Under(directory, "node_modules"), specifier);
    if directory == "/" {
      RootsFile(w, o, specifier, o.globalRoots);
    } else {
      WalkFile(w, o, specifier, Parent(directory));
    }
  }

  lemma PlainFile(w: World, o: Options, specifier: string, from: Path)
    ensures var a := Plain(w, o, specifier, from); a != Deep && (a.Found? ==> IsFile(w, a.path))
  {
    AsFileIs(w, o, Join(from, specifier));
    DirectoryIs(w, o, Join(from, specifier));
    var near := Nearest(w, from);
    if near.Some? { ExportsAre(w, o, near.value.0, near.value.1, specifier); }
    WalkFile(w, o, specifier, from);
  }

  // ------------------------------------------------------------------ which of several answers

  /** The path itself comes before any extension, and an extension before a TypeScript sibling. */
  lemma ExactPathWins(w: World, o: Options, path: Path)
    ensures IsFile(w, path) ==> AsFile(w, o, path) == Some(path)
    ensures !IsFile(w, path) && o.extensions != [] && IsFile(w, path + o.extensions[0]) ==>
              AsFile(w, o, path) == Some(path + o.extensions[0])
  {
    var candidates := [path] + Extended(path, o.extensions) + Sibling(o, path);
    assert candidates[0] == path;
    if o.extensions != [] {
      var next := path + o.extensions[0];
      assert Extended(path, o.extensions)[0] == next;
      assert candidates[1..][0] == next;
      assert FirstFile(w, candidates) == if IsFile(w, path) then Some(path) else FirstFile(w, candidates[1..]);
    }
  }

  /** A subpath an exports map names under no condition set is not found, whatever files the package has. */
  lemma {:induction false} UnnamedIsNotFound(w: World, o: Options, root: Path, pkg: Manifest, specifier: string)
    requires !NamedIn(w, pkg, Subpath(specifier, PackageNameOf(specifier)), SetsOf(o, PackageNameOf(specifier)))
    ensures PackageExports(w, o, root, pkg, specifier)
         == if o.throwNotExported then Refused(root + "/package.json", Subpath(specifier, PackageNameOf(specifier))) else Missing
  {
    var name := PackageNameOf(specifier);
    UnnamedSets(w, o, root, pkg, Subpath(specifier, name), SetsOf(o, name));
  }

  lemma {:induction false} UnnamedSets(w: World, o: Options, root: Path, pkg: Manifest, subpath: string, sets: seq<Conditions>)
    requires !NamedIn(w, pkg, subpath, sets)
    ensures ExportSets(w, o, root, pkg, subpath, sets) == None
  {
    if sets != [] {
      assert sets[0] in sets && forall s :: s in sets[1..] ==> s in sets;
      UnnamedSets(w, o, root, pkg, subpath, sets[1..]);
    }
  }

  /** A directory some levels above another. */
  function Above(from: Path, levels: nat): Path
    decreases levels
  {
    if levels == 0 then from else Above(Parent(from), levels - 1)
  }

  /** The nearest `node_modules` that answers answers: no farther one and no global folder does. */
  lemma {:induction false} NearestLevelWins(w: World, o: Options, specifier: string, from: Path, levels: nat)
    requires forall k :: 0 <= k < levels ==> Above(from, k) != "/" && Level(w, o, specifier, Above(from, k)) == Missing
    requires Level(w, o, specifier, Above(from, levels)) != Missing
    ensures WalkUp(w, o, specifier, from) == Level(w, o, specifier, Above(from, levels))
    decreases levels
  {
    hide Level, Roots;
    if levels > 0 {
      assert Above(from, 0) == from;
      forall k | 0 <= k < levels - 1
        ensures Above(Parent(from), k) != "/" && Level(w, o, specifier, Above(Parent(from), k)) == Missing
      {
        assert Above(from, k + 1) == Above(Parent(from), k);
      }
      NearestLevelWins(w, o, specifier, Parent(from), levels - 1);
    }
  }

  // ------------------------------------------------------------------ how deep imports maps lead

  /** An answer is the answer, however many imports maps more are allowed for. */
  lemma {:induction false} DeeperAgrees(depth: nat, w: World, o: Options, specifier: string, from: Path)
    requires Resolved(depth, w, o, specifier, from) != Deep
    ensures Resolved(depth + 1, w, o, specifier, from) == Resolved(depth, w, o, specifier, from)
    decreases depth
  {
    if IsImport(specifier) {
      var near := Nearest(w, from);
      if near.Some? && near.value.1.importsMap.Some? {
        SetsAgree(depth, w, o, near.value.0, near.value.1, specifier, o.conditionSets);
      }
    }
  }

  lemma {:induction false} SetsAgree(depth: nat, w: World, o: Options, directory: Path, pkg: Manifest, specifier: string,
                                     sets: seq<Conditions>)
    requires ImportSets(depth, w, o, directory, pkg, specifier, sets) != Deep
    ensures ImportSets(depth + 1, w, o, directory, pkg, specifier, sets)
         == ImportSets(depth, w, o, directory, pkg, specifier, sets)
    decreases depth, 2, |sets|
  {
    if sets != [] {
      var targets := TargetsOf(w.imports(pkg, specifier, sets[0]));
      TargetsAgree(depth, w, o, directory, targets);
      if ImportTargets(depth, w, o, directory, targets) == Missing {
        SetsAgree(depth, w, o, directory, pkg, specifier, sets[1..]);
      }
    }
  }

  lemma {:induction false} TargetsAgree(depth: nat, w: World, o: Options, directory: Path, targets: seq<string>)
    requires ImportTargets(depth, w, o, directory, targets) != Deep
    ensures ImportTargets(depth + 1, w, o, directory, targets) == ImportTargets(depth, w, o, directory, targets)
    decreases depth, 1, |targets|
  {
    if targets != [] {
      if depth > 0 && IsImport(targets[0]) {
        DeeperAgrees(depth - 1, w, o, targets[0], directory);
      }
      if ImportTarget(depth, w, o, directory, targets[0]) == Missing {
        TargetsAgree(depth, w, o, directory, targets[1..]);
      }
    }
  }

  /** The directory a map was found from is its own: the names it leads to are looked up in it again. */
  lemma {:induction false} NearestAgain(w: World, from: Path)
    requires Nearest(w, from).Some?
    ensures Nearest(w, Nearest(w, from).value.0) == Nearest(w, from)
    decreases Depth(from)
  {
    if ConfigAt(w, ConfigPath(from)).None? {
      NearestAgain(w, Parent(from));
    }
  }
}
