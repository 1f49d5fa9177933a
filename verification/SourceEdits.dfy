/** Edits of a text assembled in one pass, against the same edits applied one after another. */
module SourceEdits {
  datatype Edit = Edit(start: nat, end: nat, text: string)

  function Min(a: nat, b: nat): nat {
    if a < b then a else b
  }

  /** `slice` of non-negative bounds: nothing where they are out of order, and no further than the text. */
  function Slice(s: string, start: nat, end: nat): string {
    if start <= end then s[Min(start, |s|)..Min(end, |s|)] else ""
  }

  function Replaced(s: string, e: Edit): string {
    Slice(s, 0, e.start) + e.text + Slice(s, e.end, |s|)
  }

  /** The edits one after another, each on what the ones before made. */
  function Repeated(s: string, edits: seq<Edit>): string
    decreases |edits|
  {
    if edits == [] then s else Repeated(Replaced(s, edits[0]), edits[1..])
  }

  function Concat(parts: seq<string>): string {
    if parts == [] then "" else parts[0] + Concat(parts[1..])
  }

  function Reversed(parts: seq<string>): seq<string> {
    if parts == [] then [] else Reversed(parts[1..]) + [parts[0]]
  }

  predicate InRange(s: string, edits: seq<Edit>) {
    forall e <- edits :: e.start <= e.end <= |s|
  }

  /** From the end of the text to its start, none reaching into the one before it. */
  predicate Descending(edits: seq<Edit>) {
    forall k :: 0 < k < |edits| ==> edits[k].end <= edits[k - 1].start
  }

  lemma {:induction false} ConcatAppend(a: seq<string>, b: seq<string>)
    ensures Concat(a + b) == Concat(a) + Concat(b)
  {
    if a == [] {
      assert a + b == b;
    } else {
      assert (a + b)[0] == a[0] && (a + b)[1..] == a[1..] + b;
      ConcatAppend(a[1..], b);
    }
  }

  lemma {:induction false} ReversedAppend(a: seq<string>, b: seq<string>)
    ensures Reversed(a + b) == Reversed(b) + Reversed(a)
  {
    if a == [] {
      assert a + b == b && Reversed(b) + [] == Reversed(b);
    } else {
      assert (a + b)[0] == a[0] && (a + b)[1..] == a[1..] + b;
      ReversedAppend(a[1..], b);
    }
  }

  /** A part pushed comes before all pushed earlier. */
  lemma Pushed(parts: seq<string>, p: string)
    ensures Concat(Reversed(parts + [p])) == p + Concat(Reversed(parts))
  {
    ReversedAppend(parts, [p]);
    assert Reversed([p]) == [p] by { assert [p][1..] == []; }
    ConcatAppend([p], Reversed(parts));
    assert Concat([p]) == p by { assert [p][1..] == []; }
  }

  lemma {:induction false} RepeatedNext(s: string, edits: seq<Edit>, e: Edit)
    ensures Repeated(s, edits + [e]) == Replaced(Repeated(s, edits), e)
    decreases |edits|
  {
    if edits == [] {
      assert [] + [e] == [e] && [e][1..] == [];
    } else {
      assert (edits + [e])[0] == edits[0] && (edits + [e])[1..] == edits[1..] + [e];
      RepeatedNext(Replaced(s, edits[0]), edits[1..], e);
    }
  }

  /** An edit before what is already assembled. */
  lemma ReplacedBefore(s: string, cursor: nat, done: string, e: Edit)
    requires e.start <= e.end <= cursor <= |s|
    ensures Replaced(s[..cursor] + done, e) == s[..e.start] + (e.text + (s[e.end..cursor] + done))
  {
    var out := s[..cursor] + done;
    assert Slice(out, 0, e.start) == s[..e.start];
    assert Slice(out, e.end, |out|) == s[e.end..cursor] + done;
  }

  method ApplySourceEdits(source: string, edits: seq<Edit>) returns (out: string)
    requires InRange(source, edits) && Descending(edits)
    ensures out == Repeated(source, edits)
  {
    hide Replaced;
    if edits == [] {
      return source;
    }
    var chunks: seq<string> := [];
    var cursor: nat := |source|;
    assert source[..cursor] + Concat(Reversed(chunks)) == source;
    for k := 0 to |edits|
      invariant cursor == if k == 0 then |source| else edits[k - 1].start
      invariant cursor <= |source|
      invariant Repeated(source, edits[..k]) == source[..cursor] + Concat(Reversed(chunks))
    {
      var e := edits[k];
      assert edits[..k + 1] == edits[..k] + [e];
      RepeatedNext(source, edits[..k], e);
      ReplacedBefore(source, cursor, Concat(Reversed(chunks)), e);
      Pushed(chunks, source[e.end..cursor]);
      Pushed(chunks + [source[e.end..cursor]], e.text);
      assert chunks + [source[e.end..cursor]] + [e.text] == chunks + [source[e.end..cursor], e.text];
      chunks := chunks + [source[e.end..cursor], e.text];
      cursor := e.start;
    }
    assert edits[..|edits|] == edits;
    Pushed(chunks, source[..cursor]);
    out := Concat(Reversed(chunks + [source[..cursor]]));
  }

  // ------------------------------------------------------------------ with any edits

  /** Whether the comparator leaves an edit before another. */
  predicate Before(a: Edit, b: Edit) {
    a.start > b.start || (a.start == b.start && a.end >= b.end)
  }

  function Inserted(e: Edit, sorted: seq<Edit>): seq<Edit> {
    if sorted == [] then [e]
    else if Before(e, sorted[0]) then [e] + sorted
    else [sorted[0]] + Inserted(e, sorted[1..])
  }

  /** The stable descending sort. */
  function Sorted(edits: seq<Edit>): seq<Edit> {
    if edits == [] then [] else Inserted(edits[0], Sorted(edits[1..]))
  }

  /** Later starts first and, of one start, later ends first. */
  predicate InOrder(edits: seq<Edit>) {
    forall j, k :: 0 <= j < k < |edits| ==>
      edits[j].start > edits[k].start || (edits[j].start == edits[k].start && edits[j].end >= edits[k].end)
  }

  /** The edits at one place, in the order they stand. */
  function At(edits: seq<Edit>, start: nat, end: nat): seq<Edit> {
    if edits == [] then []
    else (if edits[0].start == start && edits[0].end == end then [edits[0]] else []) + At(edits[1..], start, end)
  }

  lemma {:induction false} InsertedOnce(e: Edit, sorted: seq<Edit>)
    ensures multiset(Inserted(e, sorted)) == multiset(sorted) + multiset{e}
  {
    if sorted != [] && !Before(e, sorted[0]) {
      InsertedOnce(e, sorted[1..]);
      assert sorted == [sorted[0]] + sorted[1..];
    }
  }

  lemma {:induction false} InsertedInOrder(e: Edit, sorted: seq<Edit>)
    requires InOrder(sorted)
    ensures InOrder(Inserted(e, sorted))
  {
    if sorted != [] && !Before(e, sorted[0]) {
      var rest := Inserted(e, sorted[1..]);
      InsertedInOrder(e, sorted[1..]);
      forall k | 0 <= k < |rest| ensures Before(sorted[0], rest[k]) {
        InsertedFrom(e, sorted[1..], k);
      }
    }
  }

  lemma InsertedFrom(e: Edit, sorted: seq<Edit>, k: nat)
    requires k < |Inserted(e, sorted)|
    ensures Inserted(e, sorted)[k] == e || Inserted(e, sorted)[k] in sorted
  {
    InsertedOnce(e, sorted);
    assert Inserted(e, sorted)[k] in multiset(Inserted(e, sorted));
  }

  lemma {:induction false} InsertedPlaces(e: Edit, sorted: seq<Edit>, start: nat, end: nat)
    ensures At(Inserted(e, sorted), start, end) == At([e] + sorted, start, end)
  {
    assert ([e] + sorted)[1..] == sorted;
    if sorted != [] && !Before(e, sorted[0]) {
      var rest := Inserted(e, sorted[1..]);
      InsertedPlaces(e, sorted[1..], start, end);
      assert ([sorted[0]] + rest)[1..] == rest && ([e] + sorted[1..])[1..] == sorted[1..];
    }
  }

  /** The sort puts every edit once, in descending order. */
  lemma {:induction false} SortedIs(edits: seq<Edit>)
    ensures InOrder(Sorted(edits)) && multiset(Sorted(edits)) == multiset(edits)
  {
    if edits != [] {
      SortedIs(edits[1..]);
      InsertedOnce(edits[0], Sorted(edits[1..]));
      InsertedInOrder(edits[0], Sorted(edits[1..]));
      assert edits == [edits[0]] + edits[1..];
    }
  }

  /** Edits of one place stay in the order they were given. */
  lemma {:induction false} SortIsStable(edits: seq<Edit>, start: nat, end: nat)
    ensures At(Sorted(edits), start, end) == At(edits, start, end)
  {
    if edits != [] {
      SortIsStable(edits[1..], start, end);
      InsertedPlaces(edits[0], Sorted(edits[1..]), start, end);
      assert ([edits[0]] + Sorted(edits[1..]))[1..] == Sorted(edits[1..]);
    }
  }

  lemma SortedInRange(code: string, edits: seq<Edit>)
    requires InRange(code, edits)
    ensures InRange(code, Sorted(edits))
  {
    SortedIs(edits);
    forall e | e in Sorted(edits) ensures e in edits {
      assert e in multiset(Sorted(edits));
    }
  }

  method ApplyOneByOne(code: string, edits: seq<Edit>) returns (out: string)
    ensures out == Repeated(code, edits)
  {
    out := code;
    for k := 0 to |edits|
      invariant Repeated(code, edits) == Repeated(out, edits[k..])
    {
      assert edits[k..][1..] == edits[k + 1..];
      out := Slice(out, 0, edits[k].start) + edits[k].text + Slice(out, edits[k].end, |out|);
    }
  }

  /** Whatever edits are given, the result is theirs applied one by one in descending order; overlaps fall back to that. */
  method ApplyReplacements(code: string, replacements: seq<Edit>) returns (out: string)
    requires InRange(code, replacements)
    ensures out == Repeated(code, Sorted(replacements))
  {
    hide Replaced, Sorted, Concat, Reversed, Repeated;
    var edits := Sorted(replacements);
    SortedInRange(code, replacements);
    assert Repeated(code, []) == code && Concat(Reversed([])) == "" by { NoEdits(code); }
    assert edits[..0] == [];
    var parts: seq<string> := [];
    var cursor: nat := |code|;
    assert code[..cursor] + Concat(Reversed(parts)) == code;
    for k := 0 to |edits|
      invariant cursor <= |code|
      invariant Repeated(code, edits[..k]) == code[..cursor] + Concat(Reversed(parts))
    {
      var e := edits[k];
      if e.end > cursor {
        out := ApplyOneByOne(code, edits);
        return;
      }
      assert edits[..k + 1] == edits[..k] + [e];
      RepeatedNext(code, edits[..k], e);
      ReplacedBefore(code, cursor, Concat(Reversed(parts)), e);
      Pushed(parts, code[e.end..cursor]);
      Pushed(parts + [code[e.end..cursor]], e.text);
      assert parts + [code[e.end..cursor]] + [e.text] == parts + [code[e.end..cursor], e.text];
      parts := parts + [code[e.end..cursor], e.text];
      cursor := e.start;
    }
    assert edits[..|edits|] == edits;
    Pushed(parts, code[..cursor]);
    out := Concat(Reversed(parts + [code[..cursor]]));
  }

  /** Insertions at one offset, in the order they are given. */
  function Insertions(at: nat, texts: seq<string>): seq<Edit> {
    if texts == [] then [] else [Edit(at, at, texts[0])] + Insertions(at, texts[1..])
  }

  /** Any number of insertions at one offset come out last first; the sort leaves them as they are. */
  lemma {:induction false} InsertionsReverse(before: string, after: string, texts: seq<string>)
    ensures Sorted(Insertions(|before|, texts)) == Insertions(|before|, texts)
    ensures Repeated(before + after, Insertions(|before|, texts)) == before + (Concat(Reversed(texts)) + after)
    decreases |texts|
  {
    hide Replaced, Repeated, Concat, Reversed;
    if texts == [] {
      NoEdits(before + after);
      NothingReversed();
    } else {
      var rest := Insertions(|before|, texts[1..]);
      var all := Insertions(|before|, texts);
      assert all[0] == Edit(|before|, |before|, texts[0]) && all[1..] == rest;
      InsertionsReverse(before, texts[0] + after, texts[1..]);
      InsertedAt(before, after, texts[0]);
      RepeatedFirst(before + after, all);
      ReversedFirst(texts);
      assert Concat(Reversed(texts[1..])) + texts[0] + after == Concat(Reversed(texts[1..])) + (texts[0] + after);
    }
  }

  lemma NothingReversed()
    ensures Concat(Reversed([])) == ""
  {
  }

  lemma RepeatedFirst(s: string, edits: seq<Edit>)
    requires edits != []
    ensures Repeated(s, edits) == Repeated(Replaced(s, edits[0]), edits[1..])
  {
    hide Replaced;
  }

  lemma ReversedFirst(texts: seq<string>)
    requires texts != []
    ensures Concat(Reversed(texts)) == Concat(Reversed(texts[1..])) + texts[0]
  {
    hide Concat;
    ConcatAppend(Reversed(texts[1..]), [texts[0]]);
    assert Concat([texts[0]]) == texts[0] by { ConcatOne(texts[0]); }
  }

  lemma ConcatOne(text: string)
    ensures Concat([text]) == text
  {
    assert [text][1..] == [];
  }

  lemma InsertedAt(before: string, after: string, text: string)
    ensures Replaced(before + after, Edit(|before|, |before|, text)) == before + (text + after)
  {
    var s := before + after;
    assert s[..|before|] == before && s[|before|..] == after;
    assert before + text + after == before + (text + after);
  }

  lemma NoEdits(s: string)
    ensures Repeated(s, []) == s && Concat(Reversed([])) == ""
  {
  }
}
