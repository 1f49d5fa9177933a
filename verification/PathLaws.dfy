/** What joining, normalizing and climbing do to paths, part by part. */
module PathLaws {
  import opened Strings
  import opened Paths

  /** A name that is a part of a path as it is. */
  predicate Part(name: string) {
    name != "" && name != "." && name != ".." && Lacks(name, '/')
  }

  predicate Parts(names: seq<string>) {
    forall k :: 0 <= k < |names| ==> Part(names[k])
  }

  /** The path through these names from the root. */
  function PathOf(names: seq<string>): Path {
    "/" + JoinWith(names, '/')
  }

  ghost predicate Normal(path: Path) {
    exists names :: Parts(names) && path == PathOf(names)
  }

  // ------------------------------------------------------------------ walking over parts

  lemma {:induction false} WalkedJoin(a: seq<string>, b: seq<string>, done: seq<string>)
    ensures Walked(a + b, done) == Walked(b, Walked(a, done))
    decreases |a|
  {
    if a == [] {
      assert a + b == b;
    } else {
      assert (a + b)[0] == a[0] && (a + b)[1..] == a[1..] + b;
      var next := Walked([a[0]], done);
      WalkedJoin(a[1..], b, if a[0] == "" || a[0] == "." then done
                            else if a[0] == ".." then if done == [] then [] else done[..|done| - 1]
                            else done + [a[0]]);
    }
  }

  lemma {:induction false} WalkedParts(parts: seq<string>, done: seq<string>)
    requires Parts(done) && forall k :: 0 <= k < |parts| ==> Lacks(parts[k], '/')
    ensures Parts(Walked(parts, done))
    decreases |parts|
  {
    if parts != [] {
      WalkedParts(parts[1..], if parts[0] == "" || parts[0] == "." then done
                              else if parts[0] == ".." then if done == [] then [] else done[..|done| - 1]
                              else done + [parts[0]]);
    }
  }

  lemma {:induction false} WalkedOver(names: seq<string>, done: seq<string>)
    requires Parts(names)
    ensures Walked(names, done) == done + names
    decreases |names|
  {
    if names == [] {
      assert done + names == done;
    } else {
      assert Part(names[0]);
      WalkedOver(names[1..], done + [names[0]]);
      assert done + [names[0]] + names[1..] == done + names;
    }
  }

  lemma {:induction false} SplitLacks(s: string, c: char)
    ensures forall k :: 0 <= k < |Split(s, c)| ==> Lacks(Split(s, c)[k], c)
  {
    if s != [] {
      SplitLacks(s[1..], c);
    }
  }

  lemma {:induction false} SplitTwo(a: string, c: char, b: string)
    ensures Split(a + [c] + b, c) == Split(a, c) + Split(b, c)
    decreases |a|
  {
    hide Split;
    var s := a + [c] + b;
    SplitStep(s, c);
    if a == [] {
      assert s[1..] == b;
      SplitWhole(a, c);
    } else {
      SplitTwo(a[1..], c, b);
      assert s[0] == a[0] && s[1..] == a[1..] + [c] + b;
      SplitStep(a, c);
      var before, after := Split(a[1..], c), Split(b, c);
      assert (before + after)[0] == before[0] && (before + after)[1..] == before[1..] + after;
    }
  }

  lemma SplitStep(s: string, c: char)
    requires s != []
    ensures Split(s, c) == if s[0] == c then [[]] + Split(s[1..], c)
                           else [[s[0]] + Split(s[1..], c)[0]] + Split(s[1..], c)[1..]
  {
  }

  /** The names a path passes through from the root. */
  function Names(path: Path): seq<string> {
    Walked(Split(path, '/'), [])
  }

  lemma NamesAreParts(path: Path)
    ensures Parts(Names(path))
  {
    SplitLacks(path, '/');
    WalkedParts(Split(path, '/'), []);
  }

  lemma NamesUnder(base: Path, relative: string)
    ensures Names(base + "/" + relative) == Walked(Split(relative, '/'), Names(base))
  {
    SplitTwo(base, '/', relative);
    WalkedJoin(Split(base, '/'), Split(relative, '/'), []);
  }

  lemma SplitOfPath(names: seq<string>)
    requires Parts(names)
    ensures Names(PathOf(names)) == names
  {
    SplitTwo("", '/', JoinWith(names, '/'));
    assert "" + ['/'] + JoinWith(names, '/') == PathOf(names);
    if names == [] {
      assert Split(PathOf(names), '/') == ["", ""];
      assert Walked(["", ""], []) == Walked([""], []) == [] by { assert ["", ""][1..] == [""]; }
    } else {
      forall p | p in names ensures Lacks(p, '/') {
        var k :| 0 <= k < |names| && names[k] == p;
        assert Part(names[k]);
      }
      SplitJoined(names, '/');
      assert Split(PathOf(names), '/') == [""] + names;
      WalkedJoin([""], names, []);
      WalkedOver(names, []);
    }
  }

  // ------------------------------------------------------------------ normalizing

  /** No part of a normalized path is empty, `.` or `..`. */
  lemma NormalizeIsNormal(path: Path)
    ensures Normal(Normalize(path)) && Names(Normalize(path)) == Names(path)
  {
    NamesAreParts(path);
    SplitOfPath(Names(path));
    assert Normalize(path) == PathOf(Names(path));
  }

  /** A normalized path is itself. */
  lemma NormalStays(path: Path)
    requires Normal(path)
    ensures Normalize(path) == path == PathOf(Names(path))
  {
    var names :| Parts(names) && path == PathOf(names);
    SplitOfPath(names);
  }

  /** Normal paths with the same names are the same. */
  lemma SameNames(a: Path, b: Path)
    requires Normal(a) && Normal(b) && Names(a) == Names(b)
    ensures a == b
  {
    NormalStays(a);
    NormalStays(b);
  }

  // ------------------------------------------------------------------ joining

  /** An absolute path ignores its base. */
  lemma AbsoluteIgnoresBase(base: Path, other: Path, path: string)
    requires StartsWith(path, "/")
    ensures Join(base, path) == Join(other, path) == Normalize(path)
  {
  }

  lemma JoinNames(base: Path, relative: string)
    requires !StartsWith(relative, "/")
    ensures Normal(Join(base, relative)) && Names(Join(base, relative)) == Walked(Split(relative, '/'), Names(base))
  {
    NormalizeIsNormal(base + "/" + relative);
    NamesUnder(base, relative);
  }

  lemma JoinFirst(base: Path, first: string, rest: string)
    requires Lacks(first, '/') && first != ""
    ensures Names(Join(base, first + "/" + rest)) == Walked(Split(rest, '/'), Walked([first], Names(base)))
    ensures Normal(Join(base, first + "/" + rest))
  {
    assert (first + "/" + rest)[0] == first[0];
    JoinNames(base, first + "/" + rest);
    SplitFirst(first, '/', rest);
    WalkedJoin([first], Split(rest, '/'), Names(base));
  }

  /** `./` stays where it is. */
  lemma JoinHere(base: Path, rest: string)
    requires !StartsWith(rest, "/")
    ensures Join(base, "./" + rest) == Join(base, rest)
  {
    assert "./" + rest == "." + "/" + rest;
    JoinFirst(base, ".", rest);
    JoinNames(base, rest);
    SameNames(Join(base, "./" + rest), Join(base, rest));
  }

  lemma NamesOfUnder(base: Path, name: string)
    requires Part(name)
    ensures Names(Under(base, name)) == Names(base) + [name]
  {
    SplitWhole(name, '/');
    var stem := if base == "/" then "" else base;
    NamesUnder(stem, name);
    assert Split("/", '/') == ["", ""] && Split("", '/') == [""];
    assert Names("/") == [] == Names("");
    WalkedOver([name], Names(base));
  }

  /** A name is a directory further down. */
  lemma JoinDown(base: Path, name: string, rest: string)
    requires Part(name) && !StartsWith(rest, "/")
    ensures Join(base, name + "/" + rest) == Join(Under(base, name), rest)
  {
    assert name[0] != '/';
    JoinFirst(base, name, rest);
    JoinNames(Under(base, name), rest);
    NamesOfUnder(base, name);
    WalkedOver([name], Names(base));
    SameNames(Join(base, name + "/" + rest), Join(Under(base, name), rest));
  }

  /** `../` takes back the name before it. */
  lemma JoinUp(base: Path, name: string, rest: string)
    requires Part(name) && !StartsWith(rest, "/")
    ensures Join(Under(base, name), "../" + rest) == Join(base, rest)
  {
    assert "../" + rest == ".." + "/" + rest;
    var below := Under(base, name);
    JoinFirst(below, "..", rest);
    NamesOfUnder(base, name);
    assert Walked([".."], Names(base) + [name]) == Names(base) by {
      assert (Names(base) + [name])[..|Names(base)|] == Names(base);
    }
    JoinNames(base, rest);
    SameNames(Join(below, "../" + rest), Join(base, rest));
  }

  /** There is nothing above the root. */
  lemma JoinUpFromRoot(rest: string)
    requires !StartsWith(rest, "/")
    ensures Join("/", "../" + rest) == Join("/", rest)
  {
    assert "../" + rest == ".." + "/" + rest;
    JoinFirst("/", "..", rest);
    JoinNames("/", rest);
    assert Split("/", '/') == ["", ""];
    assert Names("/") == [];
    SameNames(Join("/", "../" + rest), Join("/", rest));
  }

  /** A plain name joined is that name under the base. */
  lemma JoinName(base: Path, name: string)
    requires Normal(base) && Part(name)
    ensures Join(base, name) == Under(base, name)
  {
    assert name[0] != '/';
    JoinNames(base, name);
    SplitWhole(name, '/');
    WalkedOver([name], Names(base));
    NormalStays(base);
    NamesAreParts(base);
    UnderPath(Names(base), name);
    NormalStays(Under(base, name)) by { assert Normal(Under(base, name)); }
    NamesOfUnder(base, name);
    SameNames(Join(base, name), Under(base, name));
  }

  // ------------------------------------------------------------------ climbing

  lemma {:induction false} JoinWithLast(names: seq<string>, name: string, c: char)
    ensures JoinWith(names + [name], c) == if names == [] then name else JoinWith(names, c) + [c] + name
  {
    var all := names + [name];
    if |names| == 0 {
    } else if |names| == 1 {
      assert all[1..] == [name];
      assert all[0] == names[0];
    } else {
      assert all[1..] == names[1..] + [name] && all[0] == names[0];
      JoinWithLast(names[1..], name, c);
    }
  }

  lemma {:induction false} JoinedNotEmpty(names: seq<string>)
    requires Parts(names) && names != []
    ensures JoinWith(names, '/') != ""
  {
    assert Part(names[0]);
  }

  lemma UnderPath(names: seq<string>, name: string)
    requires Parts(names) && Part(name)
    ensures Under(PathOf(names), name) == PathOf(names + [name]) && Normal(PathOf(names + [name]))
    ensures PathOf(names) == "/" <==> names == []
  {
    JoinWithLast(names, name, '/');
    if names != [] { JoinedNotEmpty(names); }
    assert Parts(names + [name]);
  }

  /** What is above a path is what stands before its last `/`, or the root. */
  lemma ParentIs(stem: string, name: string)
    requires Lacks(name, '/')
    ensures Parent(stem + "/" + name) == if stem == "" then "/" else stem
  {
    var path := stem + ['/'] + name;
    assert path == stem + "/" + name;
    LastIndexIs(stem, '/', name);
    assert path[..|stem|] == stem;
  }

  /** The directory above a name under it. */
  lemma ParentOfUnder(base: Path, name: string)
    requires Part(name)
    ensures Parent(Under(base, name)) == if base == "" then "/" else base
  {
    ParentIs(if base == "/" then "" else base, name);
  }

  /** The only directories not walked from are those named `node_modules`. */
  lemma InNodeModulesIs(base: Path, name: string)
    requires Normal(base) && Part(name)
    ensures InNodeModules(Under(base, name)) <==> name == "node_modules"
  {
    var stem := if base == "/" then "" else base;
    hide EndsWith, Lacks;
    assert Lacks(name, '/');
    NodeModulesIsAName();
    LastPart(stem, name, "node_modules");
    assert Under(base, name) == stem + "/" + name;
  }

  lemma NodeModulesIsAName()
    ensures Lacks("node_modules", '/') && "/node_modules" == "/" + "node_modules"
  {
  }

  /** What a path ends with after its last `/`. */
  lemma LastPart(stem: string, name: string, other: string)
    requires Lacks(name, '/') && Lacks(other, '/')
    ensures EndsWith(stem + "/" + name, "/" + other) <==> name == other
  {
    var path, tail := stem + "/" + name, "/" + other;
    if EndsWith(path, tail) {
      var k := |path| - |tail|;
      assert path == path[..k] + ['/'] + other && path == stem + ['/'] + name;
      LastIndexIs(stem, '/', name);
      LastIndexIs(path[..k], '/', other);
      assert path[k + 1..] == other && path[|stem| + 1..] == name;
    } else {
      assert path[|stem|..] == "/" + name;
    }
  }

  // ------------------------------------------------------------------ names of packages

  /** A package's name is the first part, or the first two where the first begins with `@`. */
  lemma PackageNames(scope: string, name: string, rest: string)
    requires Lacks(scope, '/') && Lacks(name, '/') && !StartsWith(name, "@")
    ensures PackageNameOf(name) == name && PackageNameOf(name + "/" + rest) == name
    ensures PackageNameOf("@" + scope) == "@" + scope
    ensures PackageNameOf("@" + scope + "/" + name) == "@" + scope + "/" + name
    ensures PackageNameOf("@" + scope + "/" + name + "/" + rest) == "@" + scope + "/" + name
  {
    SplitWhole(name, '/');
    SplitFirst(name, '/', rest);
    var at := "@" + scope;
    SplitWhole(at, '/');
    SplitFirst(at, '/', name);
    SplitFirst(at, '/', name + "/" + rest);
    assert at + "/" + name + "/" + rest == at + ['/'] + (name + "/" + rest);
    assert name + "/" + rest == name + ['/'] + rest;
    assert Split(at + "/" + name + "/" + rest, '/') == [at] + ([name] + Split(rest, '/'));
  }
}
