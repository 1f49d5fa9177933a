/**
 * The prelude put into a streamed document: after its leading doctype, else at its start, wherever the stream is cut.
 * Bytes are read as characters, which the first 2048 of an ASCII document are.
 */
module DocumentPrelude {
  import opened Wrappers
  import opened Strings

  const HEAD := 2048

  predicate IsSpace(c: char) {
    c == ' ' || '\t' <= c <= '\r'
  }

  function Lower(c: char): char {
    if 'A' <= c <= 'Z' then c - 'A' + 'a' else c
  }

  function LowerAll(s: string): (l: string)
    ensures |l| == |s| && forall k :: 0 <= k < |s| ==> l[k] == Lower(s[k])
  {
    seq(|s|, k requires 0 <= k < |s| => Lower(s[k]))
  }

  /** How much of a text is leading white space. */
  function Blank(s: string): (n: nat)
    ensures n <= |s|
  {
    if s != "" && IsSpace(s[0]) then 1 + Blank(s[1..]) else 0
  }

  const OPENING := "<!doctype"

  predicate Opens(s: string) {
    |OPENING| <= |s| && LowerAll(s[..|OPENING|]) == OPENING
  }

  /** The length up to and with the first `>`, where there is one. */
  function Closed(s: string): (n: Option<nat>)
    ensures n.Some? ==> 0 < n.value <= |s|
  {
    if s == "" then None
    else if s[0] == '>' then Some(1)
    else if Closed(s[1..]).Some? then Some(1 + Closed(s[1..]).value) else None
  }

  /** The length of a leading doctype, white space before it too. */
  function Doctype(head: string): (n: Option<nat>)
    ensures n.Some? ==> n.value <= |head|
  {
    var blank := Blank(head);
    var start := head[blank..];
    if !Opens(start) then None
    else
      var rest := Closed(start[|OPENING|..]);
      if rest.Some? then Some(blank + |OPENING| + rest.value) else None
  }

  /** What the doctype's expression matches: white space, the opening in any case, and on to the first `>`. */
  ghost predicate IsDoctype(head: string, blank: nat, n: nat) {
    && blank + 9 < n <= |head|
    && (forall k :: 0 <= k < blank ==> head[k] == ' ' || 9 <= head[k] as int <= 13)
    && (forall k :: 0 <= k < 9 ==> head[blank + k] == "<!doctype"[k] || head[blank + k] == "<!DOCTYPE"[k])
    && Lacks(head[blank + 9..n - 1], '>')
    && head[n - 1] == '>'
  }

  /** The opening in either case is all that reads as it in lower case. */
  lemma CaseFolds(c: char, k: nat)
    requires k < 9
    ensures |OPENING| == 9 && (Lower(c) == OPENING[k] <==> c == "<!doctype"[k] || c == "<!DOCTYPE"[k])
  {
  }

  lemma {:induction false} BlankIs(s: string)
    ensures forall k :: 0 <= k < Blank(s) ==> IsSpace(s[k])
    ensures Blank(s) < |s| ==> !IsSpace(s[Blank(s)])
  {
    if s != "" && IsSpace(s[0]) {
      BlankIs(s[1..]);
      assert forall k :: 0 < k < Blank(s) ==> s[k] == s[1..][k - 1];
    }
  }

  lemma {:induction false} ClosedIs(s: string)
    ensures Closed(s).Some? ==> s[Closed(s).value - 1] == '>' && Lacks(s[..Closed(s).value - 1], '>')
  {
    if s != "" && s[0] != '>' && Closed(s[1..]).Some? {
      var n := Closed(s[1..]).value;
      ClosedIs(s[1..]);
      assert s[..n] == [s[0]] + s[1..][..n - 1];
    }
  }

  lemma {:induction false} ClosedAt(s: string, n: nat)
    requires 0 < n <= |s| && s[n - 1] == '>' && Lacks(s[..n - 1], '>')
    ensures Closed(s) == Some(n)
  {
    if n > 1 {
      assert s[..n - 1][0] == s[0];
      assert s[1..][..n - 2] == s[..n - 1][1..];
      ClosedAt(s[1..], n - 1);
    }
  }

  /** The doctype found is the one there is, of that length, and none is found only where there is none. */
  lemma DoctypeIs(head: string, n: nat)
    ensures Doctype(head) == Some(n) <==> exists blank :: IsDoctype(head, blank, n)
  {
    hide Doctype, IsDoctype;
    if Doctype(head) == Some(n) {
      DoctypeFound(head, n);
    }
    if blank: nat :| IsDoctype(head, blank, n) {
      DoctypeThere(head, blank, n);
    }
  }

  lemma DoctypeFound(head: string, n: nat)
    requires Doctype(head) == Some(n)
    ensures IsDoctype(head, Blank(head), n)
  {
    hide Blank, Closed, LowerAll;
    var start := head[Blank(head)..];
    var rest := start[|OPENING|..];
    BlankIs(head);
    ClosedIs(rest);
    forall k | 0 <= k < 9 ensures head[Blank(head) + k] == "<!doctype"[k] || head[Blank(head) + k] == "<!DOCTYPE"[k] {
      CaseFolds(start[k], k);
      assert LowerAll(start[..|OPENING|])[k] == Lower(start[k]);
    }
    assert rest == head[Blank(head) + |OPENING|..];
    assert head[Blank(head) + 9..n - 1] == rest[..n - 1 - Blank(head) - 9];
  }

  lemma DoctypeThere(head: string, blank: nat, n: nat)
    requires IsDoctype(head, blank, n)
    ensures Doctype(head) == Some(n)
  {
    hide Blank, Closed, LowerAll;
    OpeningIs(head, blank, n);
    var start := head[blank..];
    var rest := start[|OPENING|..];
    forall k | 0 <= k < 9 ensures LowerAll(start[..|OPENING|])[k] == OPENING[k] {
      CaseFolds(start[k], k);
    }
    assert LowerAll(start[..|OPENING|]) == OPENING;
    assert rest == head[blank + |OPENING|..];
    assert head[blank + 9..n - 1] == rest[..n - 1 - blank - 9];
    ClosedAt(rest, n - blank - |OPENING|);
  }

  /** The opening begins where the white space ends. */
  lemma OpeningIs(head: string, blank: nat, n: nat)
    requires IsDoctype(head, blank, n)
    ensures Blank(head) == blank
  {
    BlankIs(head);
    assert head[blank + 0] == "<!doctype"[0];
    assert !IsSpace(head[blank]);
  }

  function Head(pending: string): string {
    if |pending| <= HEAD then pending else pending[..HEAD]
  }

  /** Whether a doctype may still be arriving. */
  predicate MayOpen(pending: string) {
    var start := Head(pending)[Blank(Head(pending))..];
    |pending| < HEAD && (Opens(start) || LowerAll(start) <= OPENING)
  }

  /** Where the prelude goes in a whole document. */
  function Cut(body: string): (cut: nat)
    ensures cut <= |body|
  {
    if Doctype(Head(body)).Some? then Doctype(Head(body)).value else 0
  }

  function WithPrelude(body: string, prelude: string): string {
    body[..Cut(body)] + prelude + body[Cut(body)..]
  }

  // ------------------------------------------------------------------ what arrives later changes nothing decided

  lemma {:induction false} BlankStays(s: string, more: string)
    requires Blank(s) < |s|
    ensures Blank(s + more) == Blank(s)
  {
    if IsSpace(s[0]) {
      assert (s + more)[1..] == s[1..] + more;
      BlankStays(s[1..], more);
    }
  }

  lemma {:induction false} ClosedStays(s: string, more: string)
    requires Closed(s).Some?
    ensures Closed(s + more) == Closed(s)
  {
    if s[0] != '>' {
      assert (s + more)[1..] == s[1..] + more;
      ClosedStays(s[1..], more);
    }
  }

  lemma DoctypeStays(head: string, more: string)
    requires Doctype(head).Some?
    ensures Doctype(head + more) == Doctype(head)
  {
    var start := head[Blank(head)..];
    BlankStays(head, more);
    assert (head + more)[Blank(head)..] == start + more;
    assert (start + more)[..|OPENING|] == start[..|OPENING|];
    assert (start + more)[|OPENING|..] == start[|OPENING|..] + more;
    ClosedStays(start[|OPENING|..], more);
  }

  /** A text that is no doctype's beginning is none with more after it. */
  lemma NeverDoctype(head: string, more: string)
    requires !Opens(head[Blank(head)..]) && !(LowerAll(head[Blank(head)..]) <= OPENING)
    ensures Doctype(head + more) == None
  {
    hide Blank, Opens, Closed;
    var start := head[Blank(head)..];
    assert start != "" by { assert LowerAll("") <= OPENING; }
    BlankStays(head, more);
    assert (head + more)[Blank(head)..] == start + more;
    NeverOpens(start, more);
  }

  lemma NeverOpens(start: string, more: string)
    requires !Opens(start) && !(LowerAll(start) <= OPENING)
    ensures !Opens(start + more)
  {
    var all := start + more;
    if |all| >= |OPENING| {
      if |start| >= |OPENING| {
        assert all[..|OPENING|] == start[..|OPENING|];
      } else {
        assert LowerAll(all[..|OPENING|])[..|start|] == LowerAll(start);
      }
    }
  }

  /** Once the prelude's place is decided from what has arrived, it is the whole document's. */
  lemma DecidedStays(pending: string, more: string)
    requires Doctype(Head(pending)).Some? || !MayOpen(pending)
    ensures Cut(pending + more) == if Doctype(Head(pending)).Some? then Doctype(Head(pending)).value else 0
  {
    if |pending| >= HEAD {
      assert Head(pending + more) == Head(pending);
    } else {
      var later := Head(pending + more)[|pending|..];
      assert Head(pending + more) == pending + later;
      if Doctype(pending).Some? {
        DoctypeStays(pending, later);
      } else {
        NeverDoctype(pending, later);
      }
    }
  }

  lemma {:induction false} NeverClosed(s: string)
    ensures Closed(s).None? ==> Lacks(s, '>')
  {
    if s != "" && s[0] != '>' {
      NeverClosed(s[1..]);
      assert s == [s[0]] + s[1..];
    }
  }

  /** What would make a doctype of a text that may still become one. */
  function Ending(start: string): string {
    (if |start| < 9 then "<!doctype"[|start|..] else "") + ">"
  }

  /** The stream is held back only within its first 2048 bytes, and there only while a doctype may still come. */
  lemma HeldOnlyWhileUnsure(pending: string)
    requires MayOpen(pending) && Doctype(Head(pending)).None?
    ensures |pending| < 2048 && Cut(pending) == 0
    ensures |pending| <= 2038 ==> exists more :: Cut(pending + more) > 0
  {
    if |pending| <= 2038 {
      var blank := Blank(pending);
      var start := pending[blank..];
      var whole := pending + Ending(start);
      assert Head(pending) == pending && Head(whole) == whole;
      EndingMakesIt(pending, blank, start);
      DoctypeThere(whole, blank, |whole|);
      assert Cut(pending + Ending(start)) > 0;
    }
  }

  lemma EndingMakesIt(pending: string, blank: nat, start: string)
    requires blank == Blank(pending) && start == pending[blank..]
    requires Opens(start) || LowerAll(start) <= OPENING
    requires Doctype(pending).None?
    ensures IsDoctype(pending + Ending(start), blank, |pending + Ending(start)|)
  {
    BlankIs(pending);
    var whole := pending + Ending(start);
    forall k | 0 <= k < 9 ensures whole[blank + k] == "<!doctype"[k] || whole[blank + k] == "<!DOCTYPE"[k] {
      if k < |start| {
        assert whole[blank + k] == start[k];
        CaseFolds(start[k], k);
        if Opens(start) { assert LowerAll(start[..|OPENING|])[k] == Lower(start[k]); }
        else { assert LowerAll(start)[k] == Lower(start[k]); }
      } else {
        assert whole[blank + k] == "<!doctype"[k];
      }
    }
    if |start| >= 9 {
      assert Opens(start) by {
        if LowerAll(start) <= OPENING { assert LowerAll(start) == OPENING && start[..|OPENING|] == start; }
      }
      NeverClosed(start[|OPENING|..]);
      assert whole[blank + 9..|whole| - 1] == start[|OPENING|..];
    } else {
      assert whole[blank + 9..|whole| - 1] == "";
    }
  }

  /** Where the prelude goes however the document goes on. */
  ghost predicate Settled(body: string, cut: nat) {
    forall more :: Cut(body + more) == cut
  }

  lemma Decided(body: string, cut: nat)
    requires Doctype(Head(body)).Some? || !MayOpen(body)
    requires cut == if Doctype(Head(body)).Some? then Doctype(Head(body)).value else 0
    ensures Settled(body, cut) && cut <= |body|
  {
    forall more ensures Cut(body + more) == cut {
      DecidedStays(body, more);
    }
    DecidedStays(body, "");
    assert body + "" == body;
  }

  lemma Later(body: string, chunk: string, cut: nat, inserted: string)
    requires Settled(body, cut) && cut <= |body|
    ensures Settled(body + chunk, cut)
    ensures (body + chunk)[..cut] + inserted + (body + chunk)[cut..] == body[..cut] + inserted + body[cut..] + chunk
  {
    forall more ensures Cut(body + chunk + more) == cut {
      assert body + chunk + more == body + (chunk + more);
    }
    assert (body + chunk)[..cut] == body[..cut] && (body + chunk)[cut..] == body[cut..] + chunk;
  }

  // ------------------------------------------------------------------ the stream

  class PreludeStream {
    const inserted: string
    var pending: string
    var done: bool
    /** All that was enqueued. */
    var out: string
    /** All that arrived, and where the prelude was put in it. */
    ghost var body: string
    ghost var place: nat

    constructor (prelude: string)
      ensures Valid() && inserted == prelude && body == "" && !done
    {
      inserted := prelude;
      pending, done, out, body, place := "", false, "", "", 0;
    }

    ghost predicate Valid()
      reads this
    {
      && (!done ==> out == "" && pending == body && (body == "" || (Doctype(Head(body)).None? && MayOpen(body))))
      && (done ==> pending == "" && place <= |body| && out == body[..place] + inserted + body[place..] && Settled(body, place))
    }

    method Release(cut: nat)
      requires !done && out == "" && pending == body && cut <= |pending|
      modifies this`pending, this`done, this`out, this`place
      ensures done && pending == "" && place == cut && out == body[..cut] + inserted + body[cut..]
    {
      place := cut;
      out := pending[..cut] + inserted + pending[cut..];
      pending, done := "", true;
    }

    method Transform(chunk: string)
      requires Valid()
      modifies this
      ensures Valid() && body == old(body) + chunk && old(out) <= out
    {
      hide Doctype, MayOpen, Head, Cut, Settled;
      if done {
        Later(body, chunk, place, inserted);
        body, out := body + chunk, out + chunk;
        return;
      }
      body, pending := body + chunk, pending + chunk;
      var doctype := Doctype(Head(pending));
      if doctype.Some? {
        Decided(body, doctype.value);
        Release(doctype.value);
        return;
      }
      if MayOpen(pending) {
        return;
      }
      Decided(body, 0);
      Release(0);
    }

    /** The document's end: a doctype still arriving was none. */
    method Flush()
      requires Valid()
      modifies this
      ensures done && body == old(body) && old(out) <= out
      ensures out == WithPrelude(body, inserted)
    {
      if !done {
        assert Cut("") == 0;
        Release(0);
      } else {
        assert Cut(body + "") == place && body + "" == body;
      }
    }
  }

  function Flat(chunks: seq<string>): string {
    if chunks == [] then "" else chunks[0] + Flat(chunks[1..])
  }

  /** However a document is cut into chunks, the prelude is in it once, at the same place. */
  method Stream(chunks: seq<string>, prelude: string) returns (out: string)
    ensures out == WithPrelude(Flat(chunks), prelude)
  {
    hide Cut;
    var stream := new PreludeStream(prelude);
    assert chunks[0..] == chunks && "" + Flat(chunks) == Flat(chunks);
    for k := 0 to |chunks|
      invariant stream.Valid() && fresh(stream) && stream.inserted == prelude
      invariant Flat(chunks) == stream.body + Flat(chunks[k..])
    {
      assert chunks[k..][1..] == chunks[k + 1..];
      assert stream.body + (chunks[k] + Flat(chunks[k + 1..])) == stream.body + chunks[k] + Flat(chunks[k + 1..]);
      stream.Transform(chunks[k]);
    }
    assert stream.body + "" == stream.body && chunks[|chunks|..] == [];
    stream.Flush();
    out := stream.out;
  }
}
