/** How long a string can be before 31 bits run out: no string of 1927 code points or fewer, and one of 1928. */
module PunycodeLimits {
  import opened Wrappers
  import opened Ucs2
  import opened Bootstring
  import opened PunycodeSpec
  import opened PunycodeRoundTrip

  const SAFE_LENGTH := 1927

  lemma StepsBound(n0: nat, n: nat, out: nat)
    requires INITIAL_N <= n0 <= n <= 0x10_FFFF && out <= SAFE_LENGTH
    ensures Steps(n0, n, out) < MAX_INT - SAFE_LENGTH
  {
    var rows: nat := n - n0;
    ProductOrder(rows, 0x10_FFFF - 128, out);
    assert Steps(n0, n, out) == rows * out;
  }

  lemma {:induction false} RowOk(ps: seq<CodePoint>, n: nat, delta: nat, bias: nat, handled: nat, basic: nat,
                                 n0: nat, i0: nat, encoded: Result<seq<Unit>, Problem>)
    requires n <= 0x11_0000 && |ps| <= SAFE_LENGTH
    requires Synced(ps, n, 0, delta, bias, n0, i0, handled, basic)
    requires encoded == Row(ps, n, delta, bias, handled, basic)
    ensures encoded.Ok?
    decreases 0x11_0000 - n, |ps| + 1
  {
    hide Row, Scan, Kept, Steps, TooFar, Level;
    if handled < |ps| {
      NextPass(ps, n, delta, bias, n0, i0, handled, basic);
      var m := Next(ps, n);
      var delta' := delta + Steps(n, m, handled + 1);
      assert delta' <= MAX_INT by {
        assert ps[..0] == [];
        StepsBound(n0, m, handled + 1);
      }
      RowStep(ps, n, delta, bias, handled, basic);
      ScanOk(ps, m, 0, delta', bias, handled, handled + 1, basic, n0, i0, encoded);
    } else {
      RowEnds(ps, n, delta, bias, handled, basic);
    }
  }

  /** A pass that is not past 31 bits at its start is scanned from there. */
  lemma RowStep(ps: seq<CodePoint>, n: nat, delta: nat, bias: nat, handled: nat, basic: nat)
    requires n <= 0x11_0000 && handled == |Kept(ps, n, 0)| < |ps| && n <= Next(ps, n)
    requires delta + Steps(n, Next(ps, n), handled + 1) <= MAX_INT
    ensures Next(ps, n) <= 0x10_FFFF && handled == |Kept(ps, Next(ps, n), 0)|
    ensures Row(ps, n, delta, bias, handled, basic)
         == Scan(ps, Next(ps, n), 0, delta + Steps(n, Next(ps, n), handled + 1), bias, handled, handled + 1, basic)
  {
    hide Row, Scan, Steps, TooFar, Kept;
    RowStarts(ps, n, delta, bias, handled, basic);
    TooFarMeans(n, Next(ps, n), delta, handled + 1);
  }

  lemma {:induction false} ScanOk(ps: seq<CodePoint>, n: nat, j: nat, delta: nat, bias: nat, handled: nat,
                                  plus: nat, basic: nat, n0: nat, i0: nat, encoded: Result<seq<Unit>, Problem>)
    requires n <= 0x10_FFFF && |ps| <= SAFE_LENGTH && n in ps
    requires Synced(ps, n, j, delta, bias, n0, i0, handled, basic)
    requires CountOk(ps, n, j, delta, handled, plus, basic)
    requires encoded == Scan(ps, n, j, delta, bias, handled, plus, basic)
    ensures encoded.Ok?
    decreases 0x11_0000 - n, |ps| - j, 1
  {
    hide Row, Scan, Kept, Steps, Level, Digits;
    DeltaBound(ps, n, j, delta, bias, handled, basic, n0, i0);
    if j == |ps| {
      PassEnds(ps, n, delta, bias, n0, i0, handled, basic);
      ScanEnds(ps, n, delta, bias, handled, plus, basic);
      RowOk(ps, n + 1, delta + 1, bias, handled, basic, n0, i0, encoded);
    } else if ps[j] == n {
      ScanPlaces(ps, n, j, delta, bias, handled, plus, basic);
      AdaptBound(delta, plus, handled == basic);
      InsertOk(ps, n, j, Adapt(delta, plus, handled == basic), handled, plus, basic);
    } else {
      MoveOk(ps, n, j, delta, bias, handled, plus, basic, n0, i0, encoded);
    }
  }

  lemma {:induction false} InsertOk(ps: seq<CodePoint>, n: nat, j: nat, bias: nat, handled: nat, plus: nat, basic: nat)
    requires INITIAL_N <= n <= 0x10_FFFF && j < |ps| <= SAFE_LENGTH && ps[j] == n
    requires basic <= handled == |Kept(ps, n, j)| && bias <= BIAS_LIMIT
    requires plus == |Kept(ps, n, 0)| + 1 && plus <= handled + 1
    requires |Kept(ps, n, j + 1)| == handled + 1
    ensures Scan(ps, n, j + 1, 0, bias, handled + 1, plus, basic).Ok?
    decreases 0x11_0000 - n, |ps| - j, 0
  {
    hide Row, Scan, Kept, Steps, Level;
    InsertSynced(ps, n, j, bias, handled, plus, basic);
    var more := Scan(ps, n, j + 1, 0, bias, handled + 1, plus, basic);
    ScanOk(ps, n, j + 1, 0, bias, handled + 1, plus, basic, n, At(ps, n, j) + 1, more);
  }

  lemma {:induction false} MoveOk(ps: seq<CodePoint>, n: nat, j: nat, delta: nat, bias: nat, handled: nat,
                                  plus: nat, basic: nat, n0: nat, i0: nat, encoded: Result<seq<Unit>, Problem>)
    requires n <= 0x10_FFFF && j < |ps| <= SAFE_LENGTH && n in ps && ps[j] != n && delta < MAX_INT
    requires Synced(ps, n, j, delta, bias, n0, i0, handled, basic)
    requires CountOk(ps, n, j, delta, handled, plus, basic)
    requires encoded == Scan(ps, n, j, delta, bias, handled, plus, basic)
    ensures encoded.Ok?
    decreases 0x11_0000 - n, |ps| - j, 0
  {
    hide Row, Scan, Kept, Steps, Level;
    var delta' := if ps[j] < n then delta + 1 else delta;
    PassOver(ps, n, j, delta, bias, n0, i0, handled, plus, basic);
    ScanPasses(ps, n, j, delta, bias, handled, plus, basic);
    ScanOk(ps, n, j + 1, delta', bias, handled, plus, basic, n0, i0, encoded);
  }

  lemma DeltaBound(ps: seq<CodePoint>, n: nat, j: nat, delta: nat, bias: nat, handled: nat, basic: nat,
                   n0: nat, i0: nat)
    requires n <= 0x10_FFFF && |ps| <= SAFE_LENGTH && n in ps
    requires Synced(ps, n, j, delta, bias, n0, i0, handled, basic)
    ensures delta < MAX_INT
  {
    hide Kept, Level;
    if handled < |ps| {
      StepsBound(n0, n, handled + 1);
    } else {
      KeptWhole(ps, n, j);
      assert Steps(n, n, handled + 1) == 0;
    }
  }

  lemma {:induction false} KeptWhole(ps: seq<CodePoint>, n: nat, j: nat)
    requires |Kept(ps, n, j)| == |ps|
    ensures Kept(ps, n, j) == ps
  {
    if ps != [] {
      KeptWhole(ps[..|ps| - 1], n, j);
    }
  }

  lemma ReachedBound(ps: seq<CodePoint>, at: nat)
    requires at < |ps| <= SAFE_LENGTH && ps[at] >= INITIAL_N
    ensures Reached(ps, at) <= MAX_INT
  {
    var n := ps[at];
    LevelBelow(ps, n, at);
    KeptStep(ps, n, at);
    StepsBound(Level(Kept(ps, n, at)), n, |Kept(ps, n, at)| + 1);
  }

  /** Every string of up to 1927 code points encodes, and decodes to itself: a domain label has at most 63. */
  lemma ShortStringsRoundTrip(text: seq<Unit>)
    requires |Points(text)| <= SAFE_LENGTH
    ensures Encoded(Points(text)).Ok?
    ensures Decoded(Encoded(Points(text)).value) == Ok(text)
  {
    var ps := Points(text);
    StartSynced(ps);
    RowOk(ps, INITIAL_N, 0, INITIAL_BIAS, |Basics(ps)|, |Basics(ps)|, INITIAL_N, 0,
          Row(ps, INITIAL_N, 0, INITIAL_BIAS, |Basics(ps)|, |Basics(ps)|));
    forall at | 0 <= at < |ps| && ps[at] >= INITIAL_N
      ensures Reached(ps, at) <= MAX_INT
    {
      ReachedBound(ps, at);
    }
    StringRoundTrip(text);
  }

  // ------------------------------------------------------------------ a string of 1928 code points

  const FAR: CodePoint := 128 + 1113840

  function Witness(): seq<CodePoint> {
    seq(1926, _ => 0x61) + [0x80, FAR]
  }

  lemma {:induction false} KeptPlaced(ps: seq<CodePoint>, n: nat, j: nat, upto: nat)
    requires upto <= |ps|
    requires forall at :: 0 <= at < upto ==> Placed(ps, n, j, at)
    requires forall at :: upto <= at < |ps| ==> !Placed(ps, n, j, at)
    ensures Kept(ps, n, j) == ps[..upto]
    decreases |ps|
  {
    if ps != [] {
      var last := |ps| - 1;
      assert forall at :: 0 <= at < last ==> Placed(ps[..last], n, j, at) == Placed(ps, n, j, at);
      if upto == |ps| {
        KeptPlaced(ps[..last], n, j, last);
        assert ps[..upto] == ps[..last] + [ps[last]];
      } else {
        KeptPlaced(ps[..last], n, j, upto);
      }
    }
  }

  lemma {:induction false} ScanOverPlaced(ps: seq<CodePoint>, n: nat, j: nat, upto: nat, delta: nat, bias: nat,
                                          handled: nat, plus: nat, basic: nat)
    requires n <= 0x10_FFFF && j <= upto <= |ps| && handled == |Kept(ps, n, j)| && plus > 0
    requires forall at :: j <= at < upto ==> ps[at] < n
    requires delta + (upto - j) <= MAX_INT
    ensures handled == |Kept(ps, n, upto)|
    ensures Scan(ps, n, j, delta, bias, handled, plus, basic)
         == Scan(ps, n, upto, delta + (upto - j), bias, handled, plus, basic)
    decreases upto - j
  {
    if j < upto {
      KeptStep(ps, n, j);
      ScanOverPlaced(ps, n, j + 1, upto, delta + 1, bias, handled, plus, basic);
    }
  }

  /** encode takes the string: 1926 basic code points, U+0080 and one code point far above it. */
  lemma WitnessEncodes(encoded: Result<seq<Unit>, Problem>)
    requires encoded == Encoded(Witness())
    ensures encoded.Ok?
  {
    hide Row, Scan, Kept, Adapt, Digits;
    var ps := Witness();
    assert Basics(ps) == Kept(ps, 128, 0);
    assert forall c :: c in ps ==> c == 0x61 || c == 0x80 || c == FAR;
    assert ps[1926] == 0x80 && ps[1927] == FAR;
    KeptPlaced(ps, 128, 0, 1926);
    var first := Row(ps, 128, 0, INITIAL_BIAS, 1926, 1926);
    assert Next(ps, 128) == 128;
    RowStep(ps, 128, 0, INITIAL_BIAS, 1926, 1926);
    ScanOverPlaced(ps, 128, 0, 1926, 0, INITIAL_BIAS, 1926, 1927, 1926);
    ScanPlaces(ps, 128, 1926, 1926, INITIAL_BIAS, 1926, 1927, 1926);
    var bias := Adapt(1926, 1927, true);
    WitnessSecondPass(ps, bias);
    assert first.Ok?;
  }

  lemma WitnessSecondPass(ps: seq<CodePoint>, bias: nat)
    requires ps == Witness()
    ensures |Kept(ps, 128, 1927)| == 1927 && Scan(ps, 128, 1927, 0, bias, 1927, 1927, 1926).Ok?
  {
    hide Row, Scan, Kept, Adapt, Digits;
    assert forall at :: 0 <= at < 1926 ==> ps[at] == 0x61;
    assert ps[1926] == 0x80 && ps[1927] == FAR;
    KeptPlaced(ps, 128, 1927, 1927);
    ScanPasses(ps, 128, 1927, 0, bias, 1927, 1927, 1926);
    ScanEnds(ps, 128, 0, bias, 1927, 1927, 1926);
    assert FAR in ps;
    assert Next(ps, 129) == FAR by {
      assert forall c :: c in ps && 129 <= c ==> c == FAR;
    }
    RowStep(ps, 129, 1, bias, 1927, 1926);
    var delta := 1 + Steps(129, FAR, 1928);
    assert delta == 2147481593;
    ScanOverPlaced(ps, FAR, 0, 1927, delta, bias, 1927, 1928, 1926);
    ScanPlaces(ps, FAR, 1927, delta + 1927, bias, 1927, 1928, 1926);
    var bias' := Adapt(delta + 1927, 1928, false);
    var last := Scan(ps, FAR, 1928, 0, bias', 1928, 1928, 1926);
    ScanEnds(ps, FAR, 0, bias', 1928, 1928, 1926);
    RowEnds(ps, FAR + 1, 1, bias', 1928, 1926);
    assert last == Ok([]);
  }

  lemma WitnessOutOfReach(ps: seq<CodePoint>)
    requires ps == Witness()
    ensures !Decodable(ps)
  {
    assert ps[1927] == FAR;
    var before := ps[..1927];
    KeptPlaced(ps, FAR, 1927, 1927);
    KeptPlaced(before, FAR, 1927, 1927);
    assert before[..1927] == before && before[1926] == 0x80;
    assert forall c :: c in before ==> c <= 0x80;
    assert Reached(ps, 1927) == Steps(128, FAR, 1928) + 1927;
    assert Steps(128, FAR, 1928) == 2147483520;
  }

  /** So decode does not undo every encode: this string's own encoding is refused as an overflow. */
  lemma EncodedButNotDecoded()
    ensures |Witness()| == SAFE_LENGTH + 1
    ensures Encoded(Witness()).Ok? && DecodedNumbers(Encoded(Witness()).value) == Err(Overflow)
  {
    WitnessEncodes(Encoded(Witness()));
    WitnessOutOfReach(Witness());
    RoundTrip(Witness());
  }
}
