/** When the walk through an imports map ends: exactly when no loop of its `#` names is asked for without end. */
module ImportLoops {
  import opened Wrappers
  import opened Strings
  import opened Paths
  import opened Resolution
  import opened ResolutionLaws

  /** The map a directory's `#` names are looked up in. */
  ghost predicate Mapped(w: World, directory: Path, pkg: Manifest) {
    Nearest(w, directory) == Some((directory, pkg)) && pkg.importsMap.Some?
  }

  /** What a name may stand for, in the order it is tried: its targets under each condition set. */
  function Targets(w: World, pkg: Manifest, specifier: string, sets: seq<Conditions>): seq<string> {
    if sets == [] then [] else TargetsOf(w.imports(pkg, specifier, sets[0])) + Targets(w, pkg, specifier, sets[1..])
  }

  function TargetsHere(w: World, o: Options, pkg: Manifest, specifier: string): seq<string> {
    Targets(w, pkg, specifier, o.conditionSets)
  }

  lemma {:induction false} TargetsAppend(depth: nat, w: World, o: Options, directory: Path, a: seq<string>, b: seq<string>)
    ensures ImportTargets(depth, w, o, directory, a + b)
         == if ImportTargets(depth, w, o, directory, a) != Missing then ImportTargets(depth, w, o, directory, a)
            else ImportTargets(depth, w, o, directory, b)
    decreases |a|
  {
    hide ImportTarget;
    if a == [] {
      assert a + b == b;
    } else {
      assert (a + b)[0] == a[0] && (a + b)[1..] == a[1..] + b;
      TargetsAppend(depth, w, o, directory, a[1..], b);
    }
  }

  lemma {:induction false} SetsAreTargets(depth: nat, w: World, o: Options, directory: Path, pkg: Manifest,
                                          specifier: string, sets: seq<Conditions>)
    ensures ImportSets(depth, w, o, directory, pkg, specifier, sets)
         == ImportTargets(depth, w, o, directory, Targets(w, pkg, specifier, sets))
    decreases |sets|
  {
    hide ImportTarget, ImportTargets;
    if sets == [] {
      assert ImportTargets(depth, w, o, directory, []) == Missing by { NoTargets(depth, w, o, directory); }
    } else {
      SetsAreTargets(depth, w, o, directory, pkg, specifier, sets[1..]);
      TargetsAppend(depth, w, o, directory, TargetsOf(w.imports(pkg, specifier, sets[0])),
                    Targets(w, pkg, specifier, sets[1..]));
    }
  }

  lemma NoTargets(depth: nat, w: World, o: Options, directory: Path)
    ensures ImportTargets(depth, w, o, directory, []) == Missing
  {
  }

  /** A `#` name is answered by its targets in the one map. */
  lemma NameIsItsTargets(depth: nat, w: World, o: Options, directory: Path, pkg: Manifest, specifier: string, from: Path)
    requires Mapped(w, directory, pkg) && IsImport(specifier) && Nearest(w, from) == Some((directory, pkg))
    ensures Resolved(depth, w, o, specifier, from)
         == ImportTargets(depth, w, o, directory, TargetsHere(w, o, pkg, specifier))
  {
    hide ImportTargets;
    SetsAreTargets(depth, w, o, directory, pkg, specifier, o.conditionSets);
  }

  /** From wherever the map is found, a name is asked for as from the map's own directory. */
  lemma SameFrom(depth: nat, w: World, o: Options, directory: Path, pkg: Manifest, specifier: string, from: Path)
    requires Mapped(w, directory, pkg) && Nearest(w, from) == Some((directory, pkg)) && IsImport(specifier)
    ensures Resolved(depth, w, o, specifier, from) == Resolved(depth, w, o, specifier, directory)
  {
    hide ImportTargets;
    NameIsItsTargets(depth, w, o, directory, pkg, specifier, from);
    NameIsItsTargets(depth, w, o, directory, pkg, specifier, directory);
  }

  // ------------------------------------------------------------------ the answers as the depth grows

  /** A `#` name met as a target with `depth` maps left. */
  function Ask(depth: nat, w: World, o: Options, directory: Path, name: string): Answer {
    if depth == 0 then Deep else Resolved(depth - 1, w, o, name, directory)
  }

  lemma {:induction false} DeeperStill(d: nat, e: nat, w: World, o: Options, specifier: string, from: Path)
    requires d <= e && Resolved(d, w, o, specifier, from) != Deep
    ensures Resolved(e, w, o, specifier, from) == Resolved(d, w, o, specifier, from)
    decreases e - d
  {
    hide Resolved;
    if d < e {
      DeeperAgrees(d, w, o, specifier, from);
      DeeperStill(d + 1, e, w, o, specifier, from);
    }
  }

  /** Targets whose `#` names are answered the same at two depths are. */
  lemma {:induction false} TargetsSame(d: nat, e: nat, w: World, o: Options, directory: Path, targets: seq<string>)
    requires forall t <- targets :: IsImport(t) ==> Ask(d, w, o, directory, t) == Ask(e, w, o, directory, t)
    ensures ImportTargets(d, w, o, directory, targets) == ImportTargets(e, w, o, directory, targets)
    decreases |targets|
  {
    hide Resolved, Plain, AsFile;
    if targets != [] {
      assert targets[0] in targets && forall t <- targets[1..] :: t in targets;
      TargetsSame(d, e, w, o, directory, targets[1..]);
    }
  }

  /** Names whose `#` targets are among them. */
  ghost predicate Closed(w: World, o: Options, pkg: Manifest, names: set<string>) {
    forall s <- names :: forall t <- TargetsHere(w, o, pkg, s) :: IsImport(t) ==> t in names
  }

  ghost predicate SameNext(depth: nat, w: World, o: Options, directory: Path, names: set<string>) {
    forall s <- names :: Ask(depth, w, o, directory, s) == Ask(depth + 1, w, o, directory, s)
  }

  /** Where one more map changes no answer, none after it does. */
  lemma NoneChangesAfter(depth: nat, w: World, o: Options, directory: Path, pkg: Manifest, names: set<string>)
    requires Mapped(w, directory, pkg) && Closed(w, o, pkg, names) && SameNext(depth, w, o, directory, names)
    ensures SameNext(depth + 1, w, o, directory, names)
  {
    hide ImportTargets, PackageImports, Plain;
    forall s <- names ensures Ask(depth + 1, w, o, directory, s) == Ask(depth + 2, w, o, directory, s) {
      if IsImport(s) {
        NameIsItsTargets(depth, w, o, directory, pkg, s, directory);
        NameIsItsTargets(depth + 1, w, o, directory, pkg, s, directory);
        TargetsSame(depth, depth + 1, w, o, directory, TargetsHere(w, o, pkg, s));
      }
    }
  }

  function Settled(depth: nat, w: World, o: Options, directory: Path, names: set<string>): set<string> {
    set s | s in names && Ask(depth, w, o, directory, s) != Deep
  }

  /** Every map allowed for settles another name, until none changes any more. */
  lemma {:induction false} SettlesOrStays(depth: nat, w: World, o: Options, directory: Path, pkg: Manifest,
                                          names: set<string>)
    requires Mapped(w, directory, pkg) && Closed(w, o, pkg, names)
    ensures SameNext(depth, w, o, directory, names) || |Settled(depth + 1, w, o, directory, names)| > depth
  {
    hide Resolved, Mapped, Closed;
    var here, next := Settled(depth, w, o, directory, names), Settled(depth + 1, w, o, directory, names);
    if depth > 0 {
      SettlesOrStays(depth - 1, w, o, directory, pkg, names);
      if SameNext(depth - 1, w, o, directory, names) {
        NoneChangesAfter(depth - 1, w, o, directory, pkg, names);
      }
    }
    if !SameNext(depth, w, o, directory, names) {
      var s :| s in names && Ask(depth, w, o, directory, s) != Ask(depth + 1, w, o, directory, s);
      forall t | t in here ensures t in next && t != s {
        DeeperAgrees(depth - 1, w, o, t, directory);
      }
      assert s in next;
      Larger(here, next, s);
    }
  }

  lemma Larger(a: set<string>, b: set<string>, s: string)
    requires a <= b && s in b && s !in a
    ensures |b| > |a|
  {
    assert a + {s} <= b;
    Within(a + {s}, b);
  }

  lemma {:induction false} Within(a: set<string>, b: set<string>)
    requires a <= b
    ensures |a| <= |b|
    decreases |a|
  {
    if s :| s in a {
      Within(a - {s}, b - {s});
    }
  }

  lemma {:induction false} StaysSame(d: nat, e: nat, w: World, o: Options, directory: Path, pkg: Manifest,
                                     names: set<string>)
    requires d <= e && Mapped(w, directory, pkg) && Closed(w, o, pkg, names) && SameNext(d, w, o, directory, names)
    ensures SameNext(e, w, o, directory, names)
    ensures forall s <- names :: Ask(d, w, o, directory, s) == Ask(e, w, o, directory, s)
    decreases e - d
  {
    hide Ask, Mapped, Closed;
    if d < e {
      StaysSame(d, e - 1, w, o, directory, pkg, names);
      NoneChangesAfter(e - 1, w, o, directory, pkg, names);
    }
  }

  lemma AsManyHere(depth: nat, deeper: nat, w: World, o: Options, directory: Path, pkg: Manifest, specifier: string,
                   names: set<string>)
    requires Mapped(w, directory, pkg) && specifier in names && Closed(w, o, pkg, names)
    requires |names| <= depth + 1 && depth <= deeper
    ensures Resolved(deeper, w, o, specifier, directory) == Resolved(depth, w, o, specifier, directory)
  {
    hide Resolved, Closed, Mapped, Settled;
    SettlesOrStays(|names|, w, o, directory, pkg, names);
    SettledAre(|names| + 1, w, o, directory, names);
    Within(Settled(|names| + 1, w, o, directory, names), names);
    assert SameNext(|names|, w, o, directory, names);
    StaysSame(|names|, depth + 1, w, o, directory, pkg, names);
    StaysSame(|names|, deeper + 1, w, o, directory, pkg, names);
    assert Ask(deeper + 1, w, o, directory, specifier) == Ask(depth + 1, w, o, directory, specifier);
  }

  lemma SettledAre(depth: nat, w: World, o: Options, directory: Path, names: set<string>)
    ensures Settled(depth, w, o, directory, names) <= names
  {
    hide Ask;
  }

  /** The map a `#` name asked for from a directory is looked up in, and where it is. */
  function MapOf(w: World, from: Path): Option<(Path, Manifest)> {
    if Nearest(w, from).Some? && Nearest(w, from).value.1.importsMap.Some? then Nearest(w, from) else None
  }

  /**
   * As many maps in a row as there are names to ask for are enough: a walk that has not ended by then never does.
   * `names` is any finite set that holds the name asked for and every `#` target of its own, in the one map consulted.
   */
  lemma AsManyAsNames(depth: nat, deeper: nat, w: World, o: Options, specifier: string, from: Path, names: set<string>)
    requires IsImport(specifier) && MapOf(w, from).Some? ==>
               specifier in names && Closed(w, o, MapOf(w, from).value.1, names)
    requires |names| <= depth + 1 && depth <= deeper
    ensures Resolved(deeper, w, o, specifier, from) == Resolved(depth, w, o, specifier, from)
  {
    hide Closed, ImportSets;
    if IsImport(specifier) && MapOf(w, from).Some? {
      var (directory, pkg) := MapOf(w, from).value;
      NearestAgain(w, from);
      AsManyHere(depth, deeper, w, o, directory, pkg, specifier, names);
      SameFrom(depth, w, o, directory, pkg, specifier, from);
      SameFrom(deeper, w, o, directory, pkg, specifier, from);
    }
  }

  // ------------------------------------------------------------------ loops

  ghost predicate NeverEnds(w: World, o: Options, specifier: string, from: Path) {
    forall depth: nat :: Resolved(depth, w, o, specifier, from) == Deep
  }

  /** So a walk is known to be endless by the depth of the number of names. */
  lemma NeverEndsByNames(depth: nat, w: World, o: Options, specifier: string, from: Path, names: set<string>)
    requires IsImport(specifier) && MapOf(w, from).Some? ==>
               specifier in names && Closed(w, o, MapOf(w, from).value.1, names)
    requires |names| <= depth + 1
    ensures Resolved(depth, w, o, specifier, from) == Deep <==> NeverEnds(w, o, specifier, from)
  {
    hide Resolved, Closed, IsImport, MapOf;
    if Resolved(depth, w, o, specifier, from) == Deep {
      forall d: nat ensures Resolved(d, w, o, specifier, from) == Deep {
        if d >= depth {
          AsManyAsNames(depth, d, w, o, specifier, from, names);
        } else if Resolved(d, w, o, specifier, from) != Deep {
          DeeperStill(d, depth, w, o, specifier, from);
        }
      }
    }
  }

  /** A target that is tried and answers nothing. */
  ghost predicate Passed(w: World, o: Options, directory: Path, target: string) {
    exists depth: nat :: ImportTarget(depth, w, o, directory, target) == Missing
  }

  /** A name whose targets lead back among `names`, past earlier ones that answer nothing. */
  ghost predicate LeadsBack(w: World, o: Options, directory: Path, pkg: Manifest, s: string, names: iset<string>) {
    var targets := TargetsHere(w, o, pkg, s);
    exists k :: 0 <= k < |targets| && IsImport(targets[k]) && targets[k] in names
                && forall j :: 0 <= j < k ==> Passed(w, o, directory, targets[j])
  }

  ghost predicate Loop(w: World, o: Options, directory: Path, pkg: Manifest, names: iset<string>) {
    forall s <- names :: IsImport(s) && LeadsBack(w, o, directory, pkg, s, names)
  }

  lemma ImportIsAsked(depth: nat, w: World, o: Options, directory: Path, target: string)
    requires IsImport(target)
    ensures ImportTarget(depth, w, o, directory, target) == Ask(depth, w, o, directory, target)
  {
  }

  /** A target's answer does not depend on the depth but for being deep. */
  lemma TargetSettles(d: nat, e: nat, w: World, o: Options, directory: Path, target: string)
    requires d <= e && ImportTarget(d, w, o, directory, target) != Deep
    ensures ImportTarget(e, w, o, directory, target) == ImportTarget(d, w, o, directory, target)
  {
    hide Resolved, Plain;
    if IsImport(target) && d > 0 {
      DeeperStill(d - 1, e - 1, w, o, target, directory);
    }
  }

  lemma PassedIs(depth: nat, w: World, o: Options, directory: Path, target: string)
    requires Passed(w, o, directory, target)
    ensures ImportTarget(depth, w, o, directory, target) in {Missing, Deep}
  {
    hide ImportTarget;
    var d: nat :| ImportTarget(d, w, o, directory, target) == Missing;
    if d <= depth {
      TargetSettles(d, depth, w, o, directory, target);
    } else if ImportTarget(depth, w, o, directory, target) != Deep {
      TargetSettles(depth, d, w, o, directory, target);
    }
  }

  lemma {:induction false} DeepPastThem(depth: nat, w: World, o: Options, directory: Path, targets: seq<string>, k: nat)
    requires k < |targets| && ImportTarget(depth, w, o, directory, targets[k]) == Deep
    requires forall j :: 0 <= j < k ==> Passed(w, o, directory, targets[j])
    ensures ImportTargets(depth, w, o, directory, targets) == Deep
    decreases k
  {
    hide ImportTarget;
    if k > 0 {
      PassedIs(depth, w, o, directory, targets[0]);
      DeepPastThem(depth, w, o, directory, targets[1..], k - 1);
    }
  }

  lemma NextOfLoop(w: World, o: Options, directory: Path, pkg: Manifest, s: string, names: iset<string>) returns (k: nat)
    requires Loop(w, o, directory, pkg, names) && s in names
    ensures IsImport(s) && k < |TargetsHere(w, o, pkg, s)|
    ensures IsImport(TargetsHere(w, o, pkg, s)[k]) && TargetsHere(w, o, pkg, s)[k] in names
    ensures forall j :: 0 <= j < k ==> Passed(w, o, directory, TargetsHere(w, o, pkg, s)[j])
  {
    hide Passed, TargetsHere;
    assert LeadsBack(w, o, directory, pkg, s, names) by { hide LeadsBack; }
    var targets := TargetsHere(w, o, pkg, s);
    k :| 0 <= k < |targets| && IsImport(targets[k]) && targets[k] in names
         && forall j :: 0 <= j < k ==> Passed(w, o, directory, targets[j]);
  }

  lemma {:induction false} LoopsAreDeep(depth: nat, w: World, o: Options, directory: Path, pkg: Manifest,
                                        specifier: string, names: iset<string>)
    requires Mapped(w, directory, pkg) && Loop(w, o, directory, pkg, names) && specifier in names
    ensures Resolved(depth, w, o, specifier, directory) == Deep
    decreases depth
  {
    hide Resolved, Passed, ImportTarget, ImportTargets, Mapped, Loop, LeadsBack;
    var targets := TargetsHere(w, o, pkg, specifier);
    var k := NextOfLoop(w, o, directory, pkg, specifier, names);
    if depth > 0 {
      LoopsAreDeep(depth - 1, w, o, directory, pkg, targets[k], names);
    }
    ImportIsAsked(depth, w, o, directory, targets[k]);
    DeepPastThem(depth, w, o, directory, targets, k);
    NearestIs(w, directory, pkg);
    NameIsItsTargets(depth, w, o, directory, pkg, specifier, directory);
  }

  lemma NearestIs(w: World, directory: Path, pkg: Manifest)
    requires Mapped(w, directory, pkg)
    ensures Nearest(w, directory) == Some((directory, pkg))
  {
  }

  ghost predicate NeverSettles(w: World, o: Options, directory: Path, target: string) {
    forall depth: nat :: ImportTarget(depth, w, o, directory, target) == Deep
  }

  /** Targets that are deep at every depth have one that is, past others that answer nothing. */
  lemma {:induction false} OneNeverSettles(w: World, o: Options, directory: Path, targets: seq<string>) returns (k: nat)
    requires forall depth: nat :: ImportTargets(depth, w, o, directory, targets) == Deep
    ensures k < |targets| && NeverSettles(w, o, directory, targets[k])
    ensures forall j :: 0 <= j < k ==> Passed(w, o, directory, targets[j])
    decreases |targets|
  {
    hide ImportTarget;
    if targets == [] {
      NoTargets(0, w, o, directory);
      assert false;
    } else if NeverSettles(w, o, directory, targets[0]) {
      k := 0;
    } else {
      var d: nat :| ImportTarget(d, w, o, directory, targets[0]) != Deep;
      assert ImportTargets(d, w, o, directory, targets) == Deep;
      forall depth: nat ensures ImportTargets(depth, w, o, directory, targets[1..]) == Deep {
        RestIsDeep(d, depth, w, o, directory, targets);
      }
      var rest := OneNeverSettles(w, o, directory, targets[1..]);
      k := rest + 1;
      forall j | 0 <= j < k ensures Passed(w, o, directory, targets[j]) {
        if j > 0 { assert targets[j] == targets[1..][j - 1]; }
      }
    }
  }

  lemma {:induction false} RestIsDeep(d: nat, depth: nat, w: World, o: Options, directory: Path, targets: seq<string>)
    requires targets != [] && ImportTarget(d, w, o, directory, targets[0]) == Missing
    requires forall e: nat :: ImportTargets(e, w, o, directory, targets) == Deep
    ensures ImportTargets(depth, w, o, directory, targets[1..]) == Deep
  {
    hide ImportTarget;
    var e := if depth <= d then d else depth;
    TargetSettles(d, e, w, o, directory, targets[0]);
    assert ImportTargets(e, w, o, directory, targets) == Deep;
    if ImportTargets(depth, w, o, directory, targets[1..]) != Deep {
      TargetsStill(depth, e, w, o, directory, targets[1..]);
    }
  }

  lemma {:induction false} TargetsStill(d: nat, e: nat, w: World, o: Options, directory: Path, targets: seq<string>)
    requires d <= e && ImportTargets(d, w, o, directory, targets) != Deep
    ensures ImportTargets(e, w, o, directory, targets) == ImportTargets(d, w, o, directory, targets)
    decreases e - d
  {
    hide ImportTargets;
    if d < e {
      TargetsAgree(d, w, o, directory, targets);
      TargetsStill(d + 1, e, w, o, directory, targets);
    }
  }

  lemma NeverEndsHere(w: World, o: Options, directory: Path, pkg: Manifest, specifier: string)
    requires Mapped(w, directory, pkg) && IsImport(specifier)
    ensures NeverEnds(w, o, specifier, directory)
       <==> exists names: iset<string> :: specifier in names && Loop(w, o, directory, pkg, names)
  {
    hide Resolved, Loop, Mapped;
    if names: iset<string> :| specifier in names && Loop(w, o, directory, pkg, names) {
      forall depth: nat ensures Resolved(depth, w, o, specifier, directory) == Deep {
        LoopsAreDeep(depth, w, o, directory, pkg, specifier, names);
      }
    }
    if NeverEnds(w, o, specifier, directory) {
      EndlessIsALoop(w, o, directory, pkg);
      assert specifier in Endless(w, o, directory);
    }
  }

  /** The name asked for is one of a loop of `#` names of the map it is looked up in. */
  ghost predicate InALoop(w: World, o: Options, specifier: string, from: Path) {
    && IsImport(specifier) && MapOf(w, from).Some?
    && exists names: iset<string> :: specifier in names && Loop(w, o, MapOf(w, from).value.0, MapOf(w, from).value.1, names)
  }

  /**
   * A resolution never ends if and only if it asks an imports map for one of a set of `#` names each of which leads,
   * past targets that answer nothing, to one of the set again.
   */
  lemma NeverEndsIsALoop(w: World, o: Options, specifier: string, from: Path)
    ensures NeverEnds(w, o, specifier, from) <==> InALoop(w, o, specifier, from)
  {
    hide ImportSets, Loop;
    if IsImport(specifier) && MapOf(w, from).Some? {
      var (directory, pkg) := MapOf(w, from).value;
      NearestAgain(w, from);
      forall depth: nat ensures Resolved(depth, w, o, specifier, from) == Resolved(depth, w, o, specifier, directory) {
        SameFrom(depth, w, o, directory, pkg, specifier, from);
      }
      NeverEndsHere(w, o, directory, pkg, specifier);
    } else {
      NoMapEnds(w, o, specifier, from);
    }
  }

  lemma NoMapEnds(w: World, o: Options, specifier: string, from: Path)
    requires !IsImport(specifier) || MapOf(w, from).None?
    ensures Resolved(0, w, o, specifier, from) != Deep
  {
    if !IsImport(specifier) {
      PlainFile(w, o, specifier, from);
    }
  }

  /** The `#` names whose resolution in a directory never ends. */
  ghost function Endless(w: World, o: Options, directory: Path): iset<string> {
    iset s | IsImport(s) && NeverEnds(w, o, s, directory)
  }

  lemma EndlessIsALoop(w: World, o: Options, directory: Path, pkg: Manifest)
    requires Mapped(w, directory, pkg)
    ensures Loop(w, o, directory, pkg, Endless(w, o, directory))
  {
    hide LeadsBack, Mapped, IsImport;
    forall s <- Endless(w, o, directory) ensures IsImport(s) && LeadsBack(w, o, directory, pkg, s, Endless(w, o, directory)) {
      EndlessLeadsBack(w, o, directory, pkg, s);
    }
  }

  lemma EndlessLeadsBack(w: World, o: Options, directory: Path, pkg: Manifest, s: string)
    requires Mapped(w, directory, pkg) && s in Endless(w, o, directory)
    ensures LeadsBack(w, o, directory, pkg, s, Endless(w, o, directory))
  {
    hide Resolved, ImportTargets, ImportTarget, Passed;
    var targets := TargetsHere(w, o, pkg, s);
    forall depth: nat ensures ImportTargets(depth, w, o, directory, targets) == Deep {
      NameIsItsTargets(depth, w, o, directory, pkg, s, directory);
      assert Resolved(depth, w, o, s, directory) == Deep;
    }
    var k := OneNeverSettles(w, o, directory, targets);
    NeverSettlingIsEndless(w, o, directory, targets[k]);
  }

  lemma NeverSettlingIsEndless(w: World, o: Options, directory: Path, target: string)
    requires NeverSettles(w, o, directory, target)
    ensures target in Endless(w, o, directory)
  {
    hide Resolved;
    PlainFile(w, o, target, directory);
    assert ImportTarget(0, w, o, directory, target) == Deep;
    forall depth: nat ensures Resolved(depth, w, o, target, directory) == Deep {
      assert ImportTarget(depth + 1, w, o, directory, target) == Deep;
    }
  }

  // ------------------------------------------------------------------ what ends, what does not

  /** Every `#` target of a name is among the names and ranked below it. */
  ghost predicate RanksDown(w: World, o: Options, pkg: Manifest, s: string, names: iset<string>, rank: string -> nat) {
    forall t <- TargetsHere(w, o, pkg, s) :: IsImport(t) ==> t in names && rank(t) < rank(s)
  }

  ghost predicate Ranked(w: World, o: Options, pkg: Manifest, names: iset<string>, rank: string -> nat) {
    forall s <- names :: RanksDown(w, o, pkg, s, names, rank)
  }

  lemma {:induction false} RankedEnds(w: World, o: Options, directory: Path, pkg: Manifest, specifier: string,
                                      names: iset<string>, rank: string -> nat)
    requires Mapped(w, directory, pkg) && IsImport(specifier) && specifier in names && Ranked(w, o, pkg, names, rank)
    ensures Resolved(rank(specifier), w, o, specifier, directory) != Deep
    decreases rank(specifier)
  {
    hide Resolved, ImportTargets, Mapped, Ranked, ImportTarget, TargetsHere;
    var depth := rank(specifier);
    NearestIs(w, directory, pkg);
    NameIsItsTargets(depth, w, o, directory, pkg, specifier, directory);
    RanksDownAt(w, o, pkg, specifier, names, rank);
    var targets := TargetsHere(w, o, pkg, specifier);
    forall t <- targets ensures ImportTarget(depth, w, o, directory, t) != Deep {
      if IsImport(t) {
        ImportIsAsked(depth, w, o, directory, t);
        RankedEnds(w, o, directory, pkg, t, names, rank);
        DeeperStill(rank(t), depth - 1, w, o, t, directory);
      } else {
        PlainIsNotDeep(depth, w, o, directory, t);
      }
    }
    NoneIsDeep(depth, w, o, directory, targets);
  }

  lemma RanksDownAt(w: World, o: Options, pkg: Manifest, s: string, names: iset<string>, rank: string -> nat)
    requires Ranked(w, o, pkg, names, rank) && s in names
    ensures RanksDown(w, o, pkg, s, names, rank)
  {
    hide RanksDown;
  }

  lemma PlainIsNotDeep(depth: nat, w: World, o: Options, directory: Path, target: string)
    requires !IsImport(target)
    ensures ImportTarget(depth, w, o, directory, target) != Deep
  {
    PlainFile(w, o, target, directory);
  }

  /** Where the `#` names a name leads to in its own map can be ranked downwards, it ends within its rank. */
  lemma WalkEnds(w: World, o: Options, specifier: string, from: Path, names: iset<string>, rank: string -> nat)
    requires IsImport(specifier) && MapOf(w, from).Some? ==>
               specifier in names && Ranked(w, o, MapOf(w, from).value.1, names, rank)
    ensures Resolved(rank(specifier), w, o, specifier, from) != Deep
  {
    hide ImportSets, Ranked;
    if IsImport(specifier) && MapOf(w, from).Some? {
      var (directory, pkg) := MapOf(w, from).value;
      NearestAgain(w, from);
      RankedEnds(w, o, directory, pkg, specifier, names, rank);
      SameFrom(rank(specifier), w, o, directory, pkg, specifier, from);
    } else {
      NoMapEnds(w, o, specifier, from);
      DeeperStill(0, rank(specifier), w, o, specifier, from);
    }
  }

  lemma {:induction false} NoneIsDeep(depth: nat, w: World, o: Options, directory: Path, targets: seq<string>)
    requires forall t <- targets :: ImportTarget(depth, w, o, directory, t) != Deep
    ensures ImportTargets(depth, w, o, directory, targets) != Deep
    decreases |targets|
  {
    hide ImportTarget;
    if targets != [] {
      NoneIsDeep(depth, w, o, directory, targets[1..]);
    }
  }

  /** A map whose first target for a name is that name again is walked without end. */
  lemma CircularImportNeverEnds(w: World, o: Options, specifier: string, from: Path)
    requires IsImport(specifier) && MapOf(w, from).Some? && o.conditionSets != []
    requires w.imports(MapOf(w, from).value.1, specifier, o.conditionSets[0]) == Some([specifier])
    ensures NeverEnds(w, o, specifier, from)
  {
    hide NeverEnds, Passed;
    var (directory, pkg) := MapOf(w, from).value;
    assert TargetsHere(w, o, pkg, specifier)[0] == specifier;
    assert LeadsBack(w, o, directory, pkg, specifier, iset{specifier});
    assert Loop(w, o, directory, pkg, iset{specifier});
    NeverEndsIsALoop(w, o, specifier, from);
  }
}
