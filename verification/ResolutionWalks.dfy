/** Where a package is looked for: its own config, the folders on the way up, the global ones, and the imports maps. */
module ResolutionWalks {
  import opened Wrappers
  import opened Strings
  import opened Paths
  import opened Resolution
  import opened ResolutionLaws
  import opened ResolutionOrder

  // ------------------------------------------------------------------ the nearest config

  ghost predicate NoConfig(w: World, directory: Path) {
    forall pkg :: !ConfigIn(w, directory, pkg)
  }

  /** Neither the root nor a `node_modules`, where the search for a config ends. */
  ghost predicate MayOwn(directory: Path) {
    directory != "/" && !EndsWith(directory, "/node_modules")
  }

  /** The first config met on the way up is this one, so many levels above. */
  ghost predicate NearestIn(w: World, from: Path, levels: nat, pkg: Manifest) {
    && (forall k :: 0 <= k <= levels ==> MayOwn(Above(from, k)))
    && (forall k :: 0 <= k < levels ==> NoConfig(w, Above(from, k)))
    && ConfigIn(w, Above(from, levels), pkg)
  }

  lemma NoConfigAt(w: World, directory: Path)
    ensures NoConfig(w, directory) <==> ConfigAt(w, ConfigPath(directory)) == None
  {
    ConfigIs(w, directory);
    hide ConfigAt, ConfigIn;
    var pkg := ConfigAt(w, ConfigPath(directory));
    if pkg.Some? { assert ConfigIn(w, directory, pkg.value); }
  }

  lemma {:induction false} NearestIs(w: World, from: Path, levels: nat, pkg: Manifest)
    requires NearestIn(w, from, levels, pkg)
    ensures Nearest(w, from) == Some((Above(from, levels), pkg))
    decreases levels
  {
    hide ConfigAt, ConfigIn, NoConfig;
    assert Above(from, 0) == from && MayOwn(Above(from, 0));
    ConfigIs(w, from);
    if levels > 0 {
      NoConfigAt(w, from);
      assert forall k :: 0 <= k < levels ==> Above(Parent(from), k) == Above(from, k + 1);
      assert Above(Parent(from), levels - 1) == Above(from, levels);
      assert NearestIn(w, Parent(from), levels - 1, pkg);
      NearestIs(w, Parent(from), levels - 1, pkg);
    }
  }

  /** No config owns a directory when the way up meets the root or a `node_modules` first. */
  lemma {:induction false} NoNearest(w: World, from: Path, levels: nat)
    requires forall k :: 0 <= k < levels ==> MayOwn(Above(from, k)) && NoConfig(w, Above(from, k))
    requires !MayOwn(Above(from, levels))
    ensures Nearest(w, from) == None
    decreases levels
  {
    hide ConfigAt, NoConfig;
    if levels > 0 {
      assert Above(from, 0) == from;
      NoConfigAt(w, from);
      assert forall k :: 0 <= k < levels ==> Above(Parent(from), k) == Above(from, k + 1);
      NoNearest(w, Parent(from), levels - 1);
    }
  }

  // ------------------------------------------------------------------ a package's own name

  predicate PackageSpecifier(specifier: string) {
    !IsRelative(specifier) && !IsImport(specifier)
  }

  /** A package asking for itself is answered by its own exports map before any `node_modules` is looked at. */
  lemma SelfFirst(depth: nat, w: World, o: Options, specifier: string, from: Path, levels: nat, pkg: Manifest)
    requires PackageSpecifier(specifier) && NearestIn(w, from, levels, pkg)
    requires pkg.name == Some(PackageNameOf(specifier)) && pkg.exportsMap.Some?
    requires PackageExports(w, o, Above(from, levels), pkg, specifier) != Missing
    ensures Resolved(depth, w, o, specifier, from) == PackageExports(w, o, Above(from, levels), pkg, specifier)
  {
    hide PackageExports, NearestIn;
    NearestIs(w, from, levels, pkg);
  }

  /** Every other package specifier is looked for on the way up. */
  lemma OthersWalk(depth: nat, w: World, o: Options, specifier: string, from: Path)
    requires PackageSpecifier(specifier)
    requires forall levels, pkg :: NearestIn(w, from, levels, pkg) && pkg.name == Some(PackageNameOf(specifier)) ==>
               pkg.exportsMap.None? || PackageExports(w, o, Above(from, levels), pkg, specifier) == Missing
    ensures Resolved(depth, w, o, specifier, from) == WalkUp(w, o, specifier, from)
  {
    hide PackageExports, NearestIn, WalkUp;
    if Nearest(w, from).Some? {
      var _ := NearestHas(w, from);
    }
  }

  lemma {:induction false} NearestHas(w: World, from: Path) returns (levels: nat)
    requires Nearest(w, from).Some?
    ensures NearestIn(w, from, levels, Nearest(w, from).value.1) && Above(from, levels) == Nearest(w, from).value.0
    decreases Depth(from)
  {
    hide ConfigIn;
    ConfigIs(w, from);
    var pkg := Nearest(w, from).value.1;
    assert Above(from, 0) == from;
    if ConfigAt(w, ConfigPath(from)).Some? {
      levels := 0;
    } else {
      NoConfigAt(w, from);
      var up := NearestHas(w, Parent(from));
      levels := up + 1;
      assert forall k :: 0 <= k <= up ==> Above(Parent(from), k) == Above(from, k + 1);
      forall k | 0 <= k <= levels ensures MayOwn(Above(from, k)) && (k < levels ==> NoConfig(w, Above(from, k))) {
        if k > 0 { assert Above(Parent(from), k - 1) == Above(from, k); }
      }
    }
  }

  // ------------------------------------------------------------------ installed packages

  /** What a `node_modules` folder gives of a package with an exports map: what the map says and nothing else. */
  lemma MappedPackage(w: World, o: Options, modules: Path, specifier: string, pkg: Manifest)
    requires var root := modules + "/" + PackageNameOf(specifier);
      IsDirectory(w, root) && root != "/" && ConfigIn(w, root, pkg) && pkg.exportsMap.Some?
    ensures FromNodeModules(w, o, modules, specifier)
         == PackageExports(w, o, modules + "/" + PackageNameOf(specifier), pkg, specifier)
  {
    ConfigIs(w, modules + "/" + PackageNameOf(specifier));
    hide PackageExports, ConfigAt, PackageNameOf;
  }

  /** What it gives of another: the file of that name, or else the directory. */
  lemma UnmappedPackage(w: World, o: Options, modules: Path, specifier: string)
    requires var root := modules + "/" + PackageNameOf(specifier);
      && (IsDirectory(w, root) || specifier == PackageNameOf(specifier))
      && forall pkg :: IsDirectory(w, root) && ConfigIn(w, root, pkg) ==> pkg.exportsMap.None?
    ensures var path := modules + "/" + specifier;
      var (file, main) := (AsFile(w, o, path), AsDirectory(w, o, path));
      FromNodeModules(w, o, modules, specifier)
        == if file.Some? then Found(file.value) else if main.Some? then Found(main.value) else Missing
  {
    var root := modules + "/" + PackageNameOf(specifier);
    ConfigIs(w, root);
    hide PackageExports, ConfigAt, PackageNameOf, AsFile, AsDirectory, ConfigIn;
    var pkg := ConfigAt(w, ConfigPath(root));
    if pkg.Some? { assert ConfigIn(w, root, pkg.value); }
  }

  /** Nothing is found under a package that is not there. */
  lemma AbsentPackage(w: World, o: Options, modules: Path, specifier: string)
    requires !IsDirectory(w, modules + "/" + PackageNameOf(specifier)) && specifier != PackageNameOf(specifier)
    ensures FromNodeModules(w, o, modules, specifier) == Missing
  {
  }

  /**
   * A level answers from the `node_modules` in it, and has none where it is one itself or there is no such directory.
   */
  lemma LevelIs(w: World, o: Options, specifier: string, directory: Path)
    ensures var modules := if directory == "/" then "/node_modules" else directory + "/node_modules";
      Level(w, o, specifier, directory)
        == if EndsWith(directory, "/node_modules") || w.kind(modules) != Directory then Missing
           else FromNodeModules(w, o, modules, specifier)
  {
    hide FromNodeModules;
    assert "/" + "node_modules" == "/node_modules";
    assert Under(directory, "node_modules") == if directory == "/" then "/node_modules" else directory + "/node_modules";
  }

  /** The global folders come after every level, and the first of them that answers answers. */
  lemma {:induction false} GlobalFolders(w: World, o: Options, specifier: string, from: Path, levels: nat, k: nat)
    requires Above(from, levels) == "/" && forall j :: 0 <= j < levels ==> Above(from, j) != "/"
    requires forall j :: 0 <= j <= levels ==> Level(w, o, specifier, Above(from, j)) == Missing
    requires k <= |o.globalRoots|
    requires forall j :: 0 <= j < k ==> RootGives(w, o, specifier, o.globalRoots[j]) == Missing
    requires k < |o.globalRoots| ==> RootGives(w, o, specifier, o.globalRoots[k]) != Missing
    ensures WalkUp(w, o, specifier, from) == if k == |o.globalRoots| then Missing else RootGives(w, o, specifier, o.globalRoots[k])
    decreases levels
  {
    hide Level, RootGives, Roots;
    assert Above(from, 0) == from && Level(w, o, specifier, Above(from, 0)) == Missing;
    if levels == 0 {
      RootsFirst(w, o, specifier, o.globalRoots, k);
    } else {
      assert Above(from, 0) != "/";
      assert forall j :: 0 <= j < levels ==> Above(Parent(from), j) == Above(from, j + 1);
      GlobalFolders(w, o, specifier, Parent(from), levels - 1, k);
    }
  }

  function RootGives(w: World, o: Options, specifier: string, root: Path): Answer {
    if w.kind(root) == Directory then FromNodeModules(w, o, root, specifier) else Missing
  }

  lemma {:induction false} RootsFirst(w: World, o: Options, specifier: string, roots: seq<Path>, k: nat)
    requires k <= |roots| && forall j :: 0 <= j < k ==> RootGives(w, o, specifier, roots[j]) == Missing
    requires k < |roots| ==> RootGives(w, o, specifier, roots[k]) != Missing
    ensures Roots(w, o, specifier, roots) == if k == |roots| then Missing else RootGives(w, o, specifier, roots[k])
    decreases k
  {
    hide FromNodeModules;
    if k > 0 {
      assert RootGives(w, o, specifier, roots[0]) == Missing;
      forall j | 0 <= j < k - 1 ensures RootGives(w, o, specifier, roots[1..][j]) == Missing {
        assert roots[1..][j] == roots[j + 1];
      }
      RootsFirst(w, o, specifier, roots[1..], k - 1);
    }
  }

  // ------------------------------------------------------------------ imports maps

  /**
   * A path in an imports map is a file and never a directory; any other name is resolved again from the map's
   * directory.
   */
  lemma ImportedIs(depth: nat, w: World, o: Options, directory: Path, target: string)
    ensures target != "" && target[0] in {'.', '/'} ==>
              forall p :: ImportTarget(depth, w, o, directory, target) == Found(p) <==> FileFor(w, o, Join(directory, target), p)
    ensures target != "" && target[0] in {'.', '/'} && (forall p :: !FileFor(w, o, Join(directory, target), p)) ==>
              ImportTarget(depth, w, o, directory, target) == Missing
    ensures target == "" || target[0] !in {'.', '/', '#'} ==>
              ImportTarget(depth, w, o, directory, target) == Resolved(depth, w, o, target, directory)
    ensures target != "" && target[0] == '#' && depth > 0 ==>
              ImportTarget(depth, w, o, directory, target) == Resolved(depth - 1, w, o, target, directory)
  {
    hide AsFile, FileFor, Join, Plain, PackageImports;
    FileOrder(w, o, Join(directory, target));
    if target != "" { assert target[..1] == [target[0]]; }
  }

  /** What an imports map says of a name under conditions; nothing where it throws. */
  function Mapped(w: World, pkg: Manifest, specifier: string, conditions: Conditions): seq<string> {
    match w.imports(pkg, specifier, conditions)
    case None => []
    case Some(targets) => targets
  }

  ghost predicate LeadNowhere(depth: nat, w: World, o: Options, directory: Path, targets: seq<string>) {
    forall k :: 0 <= k < |targets| ==> ImportTarget(depth, w, o, directory, targets[k]) == Missing
  }

  lemma {:induction false} ImportTargetsFirst(depth: nat, w: World, o: Options, directory: Path, targets: seq<string>,
                                              k: nat)
    requires k <= |targets| && LeadNowhere(depth, w, o, directory, targets[..k])
    requires k < |targets| ==> ImportTarget(depth, w, o, directory, targets[k]) != Missing
    ensures ImportTargets(depth, w, o, directory, targets)
         == if k == |targets| then Missing else ImportTarget(depth, w, o, directory, targets[k])
    decreases k
  {
    hide ImportTarget;
    if k > 0 {
      assert targets[..k][0] == targets[0];
      var before := targets[1..][..k - 1];
      forall j | 0 <= j < |before| ensures ImportTarget(depth, w, o, directory, before[j]) == Missing {
        assert before[j] == targets[..k][j + 1];
      }
      ImportTargetsFirst(depth, w, o, directory, targets[1..], k - 1);
    }
  }

  lemma {:induction false} ImportSetsFirst(depth: nat, w: World, o: Options, directory: Path, pkg: Manifest,
                                           specifier: string,
                                           sets: seq<Conditions>, i: nat, k: nat)
    requires i < |sets| && k < |Mapped(w, pkg, specifier, sets[i])|
    requires forall j :: 0 <= j < i ==> LeadNowhere(depth, w, o, directory, Mapped(w, pkg, specifier, sets[j]))
    requires LeadNowhere(depth, w, o, directory, Mapped(w, pkg, specifier, sets[i])[..k])
    requires ImportTarget(depth, w, o, directory, Mapped(w, pkg, specifier, sets[i])[k]) != Missing
    ensures ImportSets(depth, w, o, directory, pkg, specifier, sets)
         == ImportTarget(depth, w, o, directory, Mapped(w, pkg, specifier, sets[i])[k])
    decreases i
  {
    hide ImportTargets, ImportTarget, LeadNowhere;
    var targets := Mapped(w, pkg, specifier, sets[0]);
    if i == 0 {
      ImportTargetsFirst(depth, w, o, directory, targets, k);
    } else {
      assert LeadNowhere(depth, w, o, directory, targets);
      assert targets[..|targets|] == targets;
      ImportTargetsFirst(depth, w, o, directory, targets, |targets|);
      forall j | 0 <= j < i - 1 ensures LeadNowhere(depth, w, o, directory, Mapped(w, pkg, specifier, sets[1..][j])) {
        assert sets[1..][j] == sets[j + 1];
      }
      ImportSetsFirst(depth, w, o, directory, pkg, specifier, sets[1..], i - 1, k);
    }
  }

  /**
   * A `#` name is answered by the first target that answers, under the first set that has one, of the nearest config's
   * map.
   */
  lemma ImportsOrder(depth: nat, w: World, o: Options, specifier: string, from: Path, levels: nat, pkg: Manifest,
                     i: nat, k: nat)
    requires IsImport(specifier) && NearestIn(w, from, levels, pkg) && pkg.importsMap.Some?
    requires i < |o.conditionSets| && k < |Mapped(w, pkg, specifier, o.conditionSets[i])|
    requires forall j :: 0 <= j < i ==>
               LeadNowhere(depth, w, o, Above(from, levels), Mapped(w, pkg, specifier, o.conditionSets[j]))
    requires LeadNowhere(depth, w, o, Above(from, levels), Mapped(w, pkg, specifier, o.conditionSets[i])[..k])
    requires ImportTarget(depth, w, o, Above(from, levels), Mapped(w, pkg, specifier, o.conditionSets[i])[k]) != Missing
    ensures Resolved(depth, w, o, specifier, from)
         == ImportTarget(depth, w, o, Above(from, levels), Mapped(w, pkg, specifier, o.conditionSets[i])[k])
  {
    hide ImportSets, LeadNowhere, NearestIn, ImportTarget;
    NearestIs(w, from, levels, pkg);
    ImportSetsFirst(depth, w, o, Above(from, levels), pkg, specifier, o.conditionSets, i, k);
  }

  /** The nearest config owns its names: with no imports map in it a `#` name is not found, whatever is above. */
  lemma NoMapNoImport(depth: nat, w: World, o: Options, specifier: string, from: Path, levels: nat, pkg: Manifest)
    requires IsImport(specifier) && NearestIn(w, from, levels, pkg) && pkg.importsMap.None?
    ensures AnswerOf(depth, w, o, specifier, from) == Missing
  {
    hide NearestIn;
    NearestIs(w, from, levels, pkg);
    assert PackageImports(depth, w, o, specifier, from) == Missing;
  }

  /** What is answered is the real path of what was found, and the path itself where links are not followed. */
  lemma RealPathAnswered(depth: nat, w: World, o: Options, specifier: string, from: Path, p: Path, linked: Path)
    requires Resolved(depth, w, o, specifier, from) == Found(p)
    ensures w.links == None || (w.links.Some? && w.links.value(p) == None) ==> AnswerOf(depth, w, o, specifier, from) == Found(p)
    ensures w.links.Some? && w.links.value(p) == Some(linked) ==> AnswerOf(depth, w, o, specifier, from) == Found(linked)
  {
    hide Resolved;
  }
}
