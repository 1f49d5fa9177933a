/** The round trip of RFC 3492: decode undoes encode, and exactly when it reports an overflow instead. */
module PunycodeRoundTrip {
  import opened Wrappers
  import opened Arithmetic
  import opened Ucs2
  import opened Bootstring
  import opened PunycodeSpec

  /** A code point encode has still to place, at pass n from index j on. */
  ghost predicate Ahead(ps: seq<CodePoint>, n: nat, j: nat, at: nat) {
    at < |ps| && !Placed(ps, n, j, at)
  }

  /**
   * The position the decoder's counter reaches for the code point at an index: whole rows from the largest code
   * point placed before it, and the placed ones standing before it in its own row.
   */
  ghost function Reached(ps: seq<CodePoint>, at: nat): nat
    requires at < |ps| && ps[at] >= INITIAL_N
  {
    var before := Kept(ps, ps[at], at);
    LevelBelow(ps, ps[at], at);
    Steps(Level(before), ps[at], |before| + 1) + At(ps, ps[at], at)
  }

  lemma {:induction false} KeptBelow(ps: seq<CodePoint>, n: nat, j: nat)
    ensures forall c :: c in Kept(ps, n, j) ==> c <= n
  {
    if ps != [] {
      KeptBelow(ps[..|ps| - 1], n, j);
    }
  }

  lemma LevelBelow(ps: seq<CodePoint>, n: nat, j: nat)
    requires n >= INITIAL_N
    ensures Level(Kept(ps, n, j)) <= n
  {
    KeptBelow(ps, n, j);
  }

  /** Every code point still to place is reached within 31 bits. */
  ghost predicate WithinReach(ps: seq<CodePoint>, n: nat, j: nat)
    requires n >= INITIAL_N
  {
    forall at :: Ahead(ps, n, j, at) ==> Reached(ps, at) <= MAX_INT
  }

  /** Encoder and decoder agree: the decoder stands at <n0, i0>, `delta` positions before <n, At(ps, n, j)>. */
  ghost predicate Synced(ps: seq<CodePoint>, n: nat, j: nat, delta: nat, bias: nat, n0: nat, i0: nat,
                         handled: nat, basic: nat)
  {
    && INITIAL_N <= n0 <= n
    && j <= |ps|
    && handled == |Kept(ps, n, j)|
    && n0 == Level(Kept(ps, n, j))
    && delta + i0 == Steps(n0, n, handled + 1) + At(ps, n, j)
    && bias <= BIAS_LIMIT
    && i0 <= handled
    && basic <= handled
    && (i0 == 0 <==> handled == basic)
  }

  /** The count a pass adapts with: the one it began with, off from the decoder's only where it cannot matter. */
  ghost predicate CountOk(ps: seq<CodePoint>, n: nat, j: nat, delta: nat, handled: nat, plus: nat, basic: nat)
    requires j <= |ps|
  {
    && plus == |Kept(ps, n, 0)| + 1
    && plus <= handled + 1
    && (plus <= handled ==> handled > basic && delta <= |Kept(ps[..j], n, 0)|)
  }

  ghost predicate Outcome(ps: seq<CodePoint>, n: nat, j: nat, encoded: Result<seq<Unit>, Problem>, n0: nat, i0: nat,
                          bias: nat)
    requires n >= INITIAL_N
  {
    encoded.Ok? ==>
      Tail(encoded.value, n0, i0, bias, Kept(ps, n, j))
        == if WithinReach(ps, n, j) then Ok(ps) else Err(Overflow)
  }

  /** The next pass begins where the smallest code point still to place is: nothing is skipped over. */
  lemma NextPass(ps: seq<CodePoint>, n: nat, delta: nat, bias: nat, n0: nat, i0: nat, handled: nat, basic: nat)
    requires n <= 0x11_0000 && handled < |ps|
    requires Synced(ps, n, 0, delta, bias, n0, i0, handled, basic)
    ensures n <= Next(ps, n) <= 0x10_FFFF && Kept(ps, Next(ps, n), 0) == Kept(ps, n, 0)
    ensures var delta' := delta + Steps(n, Next(ps, n), handled + 1);
            && Synced(ps, Next(ps, n), 0, delta', bias, n0, i0, handled, basic)
            && CountOk(ps, Next(ps, n), 0, delta', handled, handled + 1, basic)
    ensures WithinReach(ps, n, 0) <==> WithinReach(ps, Next(ps, n), 0)
  {
    var m := Next(ps, n);
    NextExists(ps, n);
    StepsAdd(n0, n, m, handled + 1);
    assert ps[..0] == [];
    forall at | 0 <= at < |ps|
      ensures Ahead(ps, n, 0, at) <==> Ahead(ps, m, 0, at)
    {
      assert ps[at] in ps;
    }
  }

  lemma StepsAdd(n0: nat, n: nat, m: nat, out: nat)
    requires n0 <= n <= m
    ensures Steps(n0, m, out) == Steps(n0, n, out) + Steps(n, m, out)
  {
  }

  /** The end of a pass is the start of the row above it. */
  lemma PassEnds(ps: seq<CodePoint>, n: nat, delta: nat, bias: nat, n0: nat, i0: nat, handled: nat, basic: nat)
    requires Synced(ps, n, |ps|, delta, bias, n0, i0, handled, basic)
    ensures Synced(ps, n + 1, 0, delta + 1, bias, n0, i0, handled, basic)
    ensures WithinReach(ps, n, |ps|) <==> WithinReach(ps, n + 1, 0)
    ensures Kept(ps, n, |ps|) == Kept(ps, n + 1, 0)
  {
    KeptRow(ps, n, |ps|);
    StepsAdd(n0, n, n + 1, handled + 1);
    assert Steps(n, n + 1, handled + 1) == handled + 1;
    assert ps[..|ps|] == ps && ps[..0] == [];
    assert forall at :: Ahead(ps, n, |ps|, at) <==> Ahead(ps, n + 1, 0, at);
  }

  /** Passing a code point that is not n moves the decoder's position over it where it has been placed. */
  lemma PassOver(ps: seq<CodePoint>, n: nat, j: nat, delta: nat, bias: nat, n0: nat, i0: nat, handled: nat,
                 plus: nat, basic: nat)
    requires Synced(ps, n, j, delta, bias, n0, i0, handled, basic) && CountOk(ps, n, j, delta, handled, plus, basic)
    requires j < |ps| && ps[j] != n
    ensures var delta' := if ps[j] < n then delta + 1 else delta;
            && Synced(ps, n, j + 1, delta', bias, n0, i0, handled, basic)
            && CountOk(ps, n, j + 1, delta', handled, plus, basic)
    ensures WithinReach(ps, n, j) <==> WithinReach(ps, n, j + 1)
    ensures Kept(ps, n, j) == Kept(ps, n, j + 1)
  {
    KeptStep(ps, n, j);
    AtStep(ps, n, j);
    BelowStep(ps, n, j);
    assert forall at :: Ahead(ps, n, j, at) <==> Ahead(ps, n, j + 1, at);
  }

  lemma {:induction false} RowDecodes(ps: seq<CodePoint>, n: nat, delta: nat, bias: nat, handled: nat, basic: nat,
                                      n0: nat, i0: nat)
    requires n <= 0x11_0000
    requires Synced(ps, n, 0, delta, bias, n0, i0, handled, basic)
    ensures Outcome(ps, n, 0, Row(ps, n, delta, bias, handled, basic), n0, i0, bias)
    decreases 0x11_0000 - n, |ps| + 1
  {
    hide Row, Scan, Tail, Kept, Steps, TooFar, Level, Reached;
    if handled >= |ps| {
      RowEnds(ps, n, delta, bias, handled, basic);
      TailEnds([], n0, i0, bias, Kept(ps, n, 0));
      KeptAll(ps, n);
      assert forall at :: 0 <= at < |ps| ==> ps[at] in ps;
    } else {
      NextPass(ps, n, delta, bias, n0, i0, handled, basic);
      RowStarts(ps, n, delta, bias, handled, basic);
      var m := Next(ps, n);
      if !TooFar(n, m, delta, handled + 1) {
        ScanDecodes(ps, m, 0, delta + Steps(n, m, handled + 1), bias, handled, handled + 1, basic, n0, i0);
      }
    }
  }

  lemma {:induction false} ScanDecodes(ps: seq<CodePoint>, n: nat, j: nat, delta: nat, bias: nat, handled: nat,
                                       plus: nat, basic: nat, n0: nat, i0: nat)
    requires n <= 0x10_FFFF
    requires Synced(ps, n, j, delta, bias, n0, i0, handled, basic)
    requires CountOk(ps, n, j, delta, handled, plus, basic)
    ensures Outcome(ps, n, j, Scan(ps, n, j, delta, bias, handled, plus, basic), n0, i0, bias)
    decreases 0x11_0000 - n, |ps| - j, 2
  {
    hide Row, Scan, Tail, Kept, Steps, Level, Reached;
    if j == |ps| {
      PassEnds(ps, n, delta, bias, n0, i0, handled, basic);
      ScanEnds(ps, n, delta, bias, handled, plus, basic);
      RowDecodes(ps, n + 1, delta + 1, bias, handled, basic, n0, i0);
    } else if ps[j] == n {
      InsertDecodes(ps, n, j, delta, bias, handled, plus, basic, n0, i0);
    } else {
      PassOver(ps, n, j, delta, bias, n0, i0, handled, plus, basic);
      ScanPasses(ps, n, j, delta, bias, handled, plus, basic);
      var delta' := if ps[j] < n then delta + 1 else delta;
      if delta' <= MAX_INT || ps[j] > n {
        ScanDecodes(ps, n, j + 1, delta', bias, handled, plus, basic, n0, i0);
      }
    }
  }

  lemma {:induction false} InsertDecodes(ps: seq<CodePoint>, n: nat, j: nat, delta: nat, bias: nat, handled: nat,
                                         plus: nat, basic: nat, n0: nat, i0: nat)
    requires n <= 0x10_FFFF
    requires Synced(ps, n, j, delta, bias, n0, i0, handled, basic) && CountOk(ps, n, j, delta, handled, plus, basic)
    requires j < |ps| && ps[j] == n
    ensures Outcome(ps, n, j, Scan(ps, n, j, delta, bias, handled, plus, basic), n0, i0, bias)
    decreases 0x11_0000 - n, |ps| - j, 1
  {
    var bias' := Adapt(delta, plus, handled == basic);
    hide Row, Scan, Tail, Kept, Steps, Level, Reached, Digits;
    ScanPlaces(ps, n, j, delta, bias, handled, plus, basic);
    var encoded := Scan(ps, n, j + 1, 0, bias', handled + 1, plus, basic);
    if encoded.Ok? {
      InsertReached(ps, n, j, delta, bias, n0, i0, handled, basic);
      InsertAdapts(ps, n, j, delta, bias, n0, i0, handled, plus, basic);
      InsertReads(ps, n, j, delta, bias, n0, i0, handled, basic, encoded.value);
      if i0 + delta <= MAX_INT {
        AfterInsert(ps, n, j, delta, handled, plus, basic);
      }
      Combine(ps, n, j, Digits(delta, BASE, bias), encoded.value, n0, i0, bias, i0 + delta, At(ps, n, j) + 1, bias');
    }
  }

  lemma {:induction false} AfterInsert(ps: seq<CodePoint>, n: nat, j: nat, delta: nat, handled: nat, plus: nat,
                                       basic: nat)
    requires INITIAL_N <= n <= 0x10_FFFF && j < |ps| && ps[j] == n && delta <= MAX_INT
    requires basic <= handled == |Kept(ps, n, j)| && plus == |Kept(ps, n, 0)| + 1 && plus <= handled + 1
    ensures |Kept(ps, n, j + 1)| == handled + 1
    ensures var bias' := Adapt(delta, plus, handled == basic);
            Outcome(ps, n, j + 1, Scan(ps, n, j + 1, 0, bias', handled + 1, plus, basic), n, At(ps, n, j) + 1, bias')
    decreases 0x11_0000 - n, |ps| - j, 0
  {
    AdaptBound(delta, plus, handled == basic);
    var bias' := Adapt(delta, plus, handled == basic);
    InsertSynced(ps, n, j, bias', handled, plus, basic);
    ScanDecodes(ps, n, j + 1, 0, bias', handled + 1, plus, basic, n, At(ps, n, j) + 1);
  }

  /** What one integer and the text after it decode to, put together. */
  lemma Combine(ps: seq<CodePoint>, n: nat, j: nat, units: seq<Unit>, more: seq<Unit>, n0: nat, i0: nat, bias: nat,
                reached: nat, i1: nat, bias': nat)
    requires n >= INITIAL_N
    requires WithinReach(ps, n, j) <==> reached <= MAX_INT && WithinReach(ps, n, j + 1)
    requires Tail(units + more, n0, i0, bias, Kept(ps, n, j))
          == if reached > MAX_INT then Err(Overflow) else Tail(more, n, i1, bias', Kept(ps, n, j + 1))
    requires reached <= MAX_INT ==> Outcome(ps, n, j + 1, Ok(more), n, i1, bias')
    ensures Outcome(ps, n, j, Ok(units + more), n0, i0, bias)
  {
  }

  /** The code point at j is reached where the encoder's delta says. */
  lemma InsertReached(ps: seq<CodePoint>, n: nat, j: nat, delta: nat, bias: nat, n0: nat, i0: nat, handled: nat,
                      basic: nat)
    requires Synced(ps, n, j, delta, bias, n0, i0, handled, basic) && j < |ps| && ps[j] == n
    ensures i0 + delta == Reached(ps, j)
    ensures WithinReach(ps, n, j) <==> Reached(ps, j) <= MAX_INT && WithinReach(ps, n, j + 1)
  {
    assert Ahead(ps, n, j, j);
    assert forall at :: Ahead(ps, n, j, at) <==> at == j || Ahead(ps, n, j + 1, at);
  }

  /** Both sides adapt to the same bias, though a repeated code point's counts differ. */
  lemma InsertAdapts(ps: seq<CodePoint>, n: nat, j: nat, delta: nat, bias: nat, n0: nat, i0: nat, handled: nat,
                     plus: nat, basic: nat)
    requires Synced(ps, n, j, delta, bias, n0, i0, handled, basic) && CountOk(ps, n, j, delta, handled, plus, basic)
    requires j < |ps| && ps[j] == n
    ensures Adapt(delta, plus, handled == basic) == Adapt(delta, handled + 1, i0 == 0)
  {
    KeptPrefix(ps, n, j);
    if plus <= handled {
      AdaptIgnoresCount(delta, plus, handled + 1);
    }
  }

  lemma InsertSynced(ps: seq<CodePoint>, n: nat, j: nat, bias: nat, handled: nat, plus: nat, basic: nat)
    requires j < |ps| && ps[j] == n && n >= INITIAL_N
    requires handled == |Kept(ps, n, j)| && basic <= handled && bias <= BIAS_LIMIT
    requires plus == |Kept(ps, n, 0)| + 1 && plus <= handled + 1
    ensures At(ps, n, j) <= handled
    ensures Synced(ps, n, j + 1, 0, bias, n, At(ps, n, j) + 1, handled + 1, basic)
    ensures CountOk(ps, n, j + 1, 0, handled + 1, plus, basic)
  {
    KeptStep(ps, n, j);
    AtStep(ps, n, j);
    KeptBelow(ps, n, j + 1);
    var kept, at := Kept(ps, n, j), At(ps, n, j);
    assert (kept[..at] + [n] + kept[at..])[at] == n;
    assert n in Kept(ps, n, j + 1);
    assert Steps(n, n, handled + 2) == 0;
  }

  /** Reading one integer back inserts the code point the encoder placed. */
  lemma InsertReads(ps: seq<CodePoint>, n: nat, j: nat, delta: nat, bias: nat, n0: nat, i0: nat, handled: nat,
                    basic: nat, more: seq<Unit>)
    requires Synced(ps, n, j, delta, bias, n0, i0, handled, basic)
    requires j < |ps| && ps[j] == n && n <= 0x10_FFFF
    ensures Tail(Digits(delta, BASE, bias) + more, n0, i0, bias, Kept(ps, n, j))
         == if i0 + delta > MAX_INT then Err(Overflow)
            else Tail(more, n, At(ps, n, j) + 1, Adapt(delta, handled + 1, i0 == 0), Kept(ps, n, j + 1))
  {
    hide Tail, Kept, Level, Reached, Digits, Adapt, ReadDigits, Rows, Column;
    var text := Digits(delta, BASE, bias) + more;
    ReadsBack(delta, more, i0, 1, BASE, bias);
    assert i0 + delta * 1 == i0 + delta;
    KeptStep(ps, n, j);
    if i0 + delta > MAX_INT {
      TailFails(text, n0, i0, bias, Kept(ps, n, j));
    } else {
      Unstep(n0, n, handled + 1, At(ps, n, j));
      TailReads(text, n0, i0, bias, Kept(ps, n, j), i0 + delta, more);
    }
  }

  lemma Unstep(n0: nat, n: nat, out: nat, at: nat)
    requires n0 <= n && at < out
    ensures Rows(Steps(n0, n, out) + at, out) == n - n0 && Column(Steps(n0, n, out) + at, out) == at
  {
    DivideRows(Steps(n0, n, out) + at, n - n0, out, at);
  }

  // ------------------------------------------------------------------ whole strings

  ghost predicate Plain(units: seq<Unit>) {
    forall u :: u in units ==> u != DELIMITER && u < 0x80
  }

  lemma {:induction false} DigitsPlain(q: nat, k: nat, bias: nat)
    ensures Plain(Digits(q, k, bias))
    decreases q
  {
    if q >= Threshold(k, bias) {
      DigitsPlain(Remainder(q, Threshold(k, bias)), k + BASE, bias);
    }
  }

  lemma {:induction false} RowPlain(ps: seq<CodePoint>, n: nat, delta: nat, bias: nat, handled: nat, basic: nat)
    requires n <= 0x11_0000 && handled == |Kept(ps, n, 0)|
    ensures var r := Row(ps, n, delta, bias, handled, basic); r.Ok? ==> Plain(r.value)
    decreases 0x11_0000 - n, |ps| + 1
  {
    if handled < |ps| {
      var m := Next(ps, n);
      NextExists(ps, n);
      if !TooFar(n, m, delta, handled + 1) {
        ScanPlain(ps, m, 0, delta + Steps(n, m, handled + 1), bias, handled, handled + 1, basic);
      }
    }
  }

  lemma {:induction false} ScanPlain(ps: seq<CodePoint>, n: nat, j: nat, delta: nat, bias: nat, handled: nat,
                                     plus: nat, basic: nat)
    requires n <= 0x10_FFFF && j <= |ps| && handled == |Kept(ps, n, j)| && plus > 0
    ensures var r := Scan(ps, n, j, delta, bias, handled, plus, basic); r.Ok? ==> Plain(r.value)
    decreases 0x11_0000 - n, |ps| - j
  {
    if j == |ps| {
      KeptRow(ps, n, j);
      RowPlain(ps, n + 1, delta + 1, bias, handled, basic);
    } else {
      KeptStep(ps, n, j);
      if ps[j] == n {
        DigitsPlain(delta, BASE, bias);
        ScanPlain(ps, n, j + 1, 0, Adapt(delta, plus, handled == basic), handled + 1, plus, basic);
      } else if ps[j] > n {
        ScanPlain(ps, n, j + 1, delta, bias, handled, plus, basic);
      } else if delta + 1 <= MAX_INT {
        ScanPlain(ps, n, j + 1, delta + 1, bias, handled, plus, basic);
      }
    }
  }

  /** The last delimiter is the one encode wrote, and none when there are no basic code points. */
  lemma HeaderEnds(basics: seq<Unit>, tail: seq<Unit>)
    requires Plain(tail)
    ensures var text := basics + (if |basics| > 0 then [DELIMITER] else []) + tail;
            BasicEnd(text) == |basics| && text[..BasicEnd(text)] == basics && text[Start(text)..] == tail
  {
    var text := basics + (if |basics| > 0 then [DELIMITER] else []) + tail;
    var at := LastDelimiter(text);
    if |basics| > 0 {
      assert text[|basics|] == DELIMITER;
      assert forall i :: |basics| < i < |text| ==> text[i] == tail[i - |basics| - 1] && tail[i - |basics| - 1] in tail;
    } else {
      assert text == tail;
      assert forall i :: 0 <= i < |tail| ==> tail[i] in tail;
    }
  }

  lemma StartSynced(ps: seq<CodePoint>)
    ensures Synced(ps, INITIAL_N, 0, 0, INITIAL_BIAS, INITIAL_N, 0, |Basics(ps)|, |Basics(ps)|)
  {
    var basics := Basics(ps);
    assert forall c :: c in basics ==> c < 0x80;
    assert ps[..0] == [];
  }

  /** Whether decode can take back what encode gives, told from the code points alone. */
  ghost predicate Decodable(ps: seq<CodePoint>) {
    forall at :: 0 <= at < |ps| && ps[at] >= INITIAL_N ==> Reached(ps, at) <= MAX_INT
  }

  /**
   * decode undoes encode on every sequence of code points encode accepts, except that it reports an overflow exactly
   * where its own counter must pass 31 bits to reach a code point, which encode's smaller delta does not notice.
   */
  lemma RoundTrip(ps: seq<CodePoint>)
    requires Encoded(ps).Ok?
    ensures DecodedNumbers(Encoded(ps).value) == if Decodable(ps) then Ok(ps) else Err(Overflow)
  {
    hide Row, Scan, Tail, Kept, Steps, Level, Reached;
    var basics := Basics(ps);
    var basic := |basics|;
    var row := Row(ps, INITIAL_N, 0, INITIAL_BIAS, basic, basic);
    StartSynced(ps);
    RowPlain(ps, INITIAL_N, 0, INITIAL_BIAS, basic, basic);
    HeaderEnds(basics, row.value);
    RowDecodes(ps, INITIAL_N, 0, INITIAL_BIAS, basic, basic, INITIAL_N, 0);
    assert forall j :: 0 <= j < basic ==> basics[j] in basics;
    assert WithinReach(ps, INITIAL_N, 0) <==> Decodable(ps);
  }

  /** The same for JavaScript strings, lone surrogates included: decode(encode(s)) is s, or an overflow is reported. */
  lemma StringRoundTrip(text: seq<Unit>)
    requires Encoded(Points(text)).Ok?
    ensures Decoded(Encoded(Points(text)).value) == if Decodable(Points(text)) then Ok(text) else Err(Overflow)
  {
    RoundTrip(Points(text));
    UnitsOfPoints(text);
  }
}
