/** Strings as the program takes them apart. */
module Strings {
  predicate StartsWith(s: string, prefix: string) {
    prefix <= s
  }

  predicate EndsWith(s: string, suffix: string) {
    |suffix| <= |s| && s[|s| - |suffix|..] == suffix
  }

  /** The index of a character's last occurrence, or -1. */
  function LastIndexOf(s: string, c: char): (k: int)
    ensures -1 <= k < |s|
    ensures k >= 0 ==> s[k] == c
    ensures forall j :: k < j < |s| ==> s[j] != c
  {
    if s == [] then -1 else if s[|s| - 1] == c then |s| - 1 else LastIndexOf(s[..|s| - 1], c)
  }

  function Split(s: string, c: char): (parts: seq<string>)
    ensures |parts| > 0
  {
    if s == [] then [[]]
    else
      var rest := Split(s[1..], c);
      if s[0] == c then [[]] + rest else [[s[0]] + rest[0]] + rest[1..]
  }

  function JoinWith(parts: seq<string>, c: char): string {
    if parts == [] then [] else if |parts| == 1 then parts[0] else parts[0] + [c] + JoinWith(parts[1..], c)
  }

  predicate Lacks(s: string, c: char) {
    forall k :: 0 <= k < |s| ==> s[k] != c
  }

  lemma {:induction false} LastIndexIs(before: string, c: char, after: string)
    requires Lacks(after, c)
    ensures LastIndexOf(before + [c] + after, c) == |before|
    decreases |after|
  {
    var s := before + [c] + after;
    if after == [] {
      assert s[|s| - 1] == c;
    } else {
      assert s[|s| - 1] == after[|after| - 1];
      assert s[..|s| - 1] == before + [c] + after[..|after| - 1];
      LastIndexIs(before, c, after[..|after| - 1]);
    }
  }

  lemma {:induction false} SplitWhole(s: string, c: char)
    requires Lacks(s, c)
    ensures Split(s, c) == [s]
  {
    if s != [] {
      SplitWhole(s[1..], c);
      assert [s[0]] + s[1..] == s;
    }
  }

  lemma {:induction false} SplitFirst(a: string, c: char, b: string)
    requires Lacks(a, c)
    ensures Split(a + [c] + b, c) == [a] + Split(b, c)
  {
    var s := a + [c] + b;
    if a == [] {
      assert s[1..] == b;
    } else {
      SplitFirst(a[1..], c, b);
      assert s[1..] == a[1..] + [c] + b;
      assert [a[0]] + a[1..] == a;
    }
  }

  /** Splitting takes apart what joining put together. */
  lemma {:induction false} SplitJoined(parts: seq<string>, c: char)
    requires parts != [] && forall p <- parts :: Lacks(p, c)
    ensures Split(JoinWith(parts, c), c) == parts
  {
    if |parts| == 1 {
      SplitWhole(parts[0], c);
      assert parts == [parts[0]];
    } else {
      SplitFirst(parts[0], c, JoinWith(parts[1..], c));
      SplitJoined(parts[1..], c);
      assert parts == [parts[0]] + parts[1..];
    }
  }
}
