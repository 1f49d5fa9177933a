/** Sample strings of RFC 3492 (section 7.1): what encode writes, insertion by insertion. */
module PunycodeSamples {
  import opened Wrappers
  import opened Ucs2
  import opened Bootstring
  import opened PunycodeFormulas
  import opened PunycodeSpec
  import opened PunycodeLimits

  /** How many of the code points are below one. */
  function Below(ps: seq<CodePoint>, m: nat): nat {
    if ps == [] then 0 else (if ps[0] < m then 1 else 0) + Below(ps[1..], m)
  }

  lemma {:induction false} ScanCounts(ps: seq<CodePoint>, n: nat, j: nat, upto: nat, delta: nat, bias: nat, handled: nat,
                                      plus: nat, basic: nat)
    requires n <= 0x10_FFFF && j <= upto <= |ps| && handled == |Kept(ps, n, j)| && plus > 0
    requires forall at :: j <= at < upto ==> ps[at] != n
    requires delta + (upto - j) <= MAX_INT
    ensures handled == |Kept(ps, n, upto)|
    ensures Scan(ps, n, j, delta, bias, handled, plus, basic)
         == Scan(ps, n, upto, delta + Below(ps[j..upto], n), bias, handled, plus, basic)
    decreases upto - j
  {
    hide Scan, Kept;
    if j == upto {
      assert ps[j..upto] == [];
    } else {
      ScanPasses(ps, n, j, delta, bias, handled, plus, basic);
      assert ps[j..upto][1..] == ps[j + 1..upto];
      ScanCounts(ps, n, j + 1, upto, delta + if ps[j] < n then 1 else 0, bias, handled, plus, basic);
    }
  }

  /** The only code point from n up to its own. */
  predicate Alone(ps: seq<CodePoint>, n: nat, at: nat)
    requires at < |ps|
  {
    forall j :: 0 <= j < |ps| && j != at ==> ps[j] < n || ps[j] > ps[at]
  }

  /** The positions from a pass's start to where its only code point goes, with those since the last one. */
  function Moved(ps: seq<CodePoint>, n: nat, delta: nat, handled: nat, at: nat): nat
    requires at < |ps| && n <= ps[at]
  {
    delta + (ps[at] - n) * (handled + 1) + Below(ps[..at], ps[at])
  }

  lemma PassReaches(ps: seq<CodePoint>, n: nat, delta: nat, bias: nat, handled: nat, basic: nat, at: nat)
    requires handled == |Kept(ps, n, 0)| && at < |ps| && n <= ps[at] && |ps| <= SAFE_LENGTH && delta <= |ps|
    requires Alone(ps, n, at)
    ensures handled == |Kept(ps, ps[at], at)| && Moved(ps, n, delta, handled, at) + |ps| <= MAX_INT
    ensures Row(ps, n, delta, bias, handled, basic)
         == Scan(ps, ps[at], at, Moved(ps, n, delta, handled, at), bias, handled, handled + 1, basic)
  {
    hide Row, Scan, Kept, Steps, Below;
    var m := ps[at];
    assert m in ps;
    KeptAll(ps, n);
    NextExists(ps, n);
    assert Next(ps, n) == m by {
      assert forall c :: c in ps && n <= c ==> m <= c;
    }
    InsertBound(n, m, delta, handled, |ps|);
    RowStep(ps, n, delta, bias, handled, basic);
    var d := delta + Steps(n, m, handled + 1);
    StepsAre(n, m, handled + 1);
    assert ps[0..at] == ps[..at];
    ScanCounts(ps, m, 0, at, d, bias, handled, handled + 1, basic);
    BelowBound(ps[..at], m);
  }

  lemma {:induction false} BelowBound(ps: seq<CodePoint>, m: nat)
    ensures Below(ps, m) <= |ps|
  {
    if ps != [] { BelowBound(ps[1..], m); }
  }

  /** The only code point of its pass is written with the positions since the last one. */
  lemma Inserts(ps: seq<CodePoint>, n: nat, delta: nat, bias: nat, handled: nat, basic: nat, at: nat, m: nat, d: nat,
                bias': nat)
    requires handled == |Kept(ps, n, 0)| && at < |ps| && n <= ps[at] == m && |ps| <= SAFE_LENGTH && delta <= |ps|
    requires Alone(ps, n, at)
    requires d == Moved(ps, n, delta, handled, at) && bias' == Adapt(d, handled + 1, handled == basic)
    ensures |Kept(ps, m + 1, 0)| == handled + 1
    ensures Row(ps, n, delta, bias, handled, basic)
         == Prepend(Digits(d, 36, bias), Row(ps, m + 1, Below(ps[at + 1..], m) + 1, bias', handled + 1, basic))
  {
    hide Row, Scan, Kept, Adapt, Digits, Below, Moved;
    PassReaches(ps, n, delta, bias, handled, basic, at);
    ScanPlaces(ps, m, at, d, bias, handled, handled + 1, basic);
    assert ps[at + 1..|ps|] == ps[at + 1..];
    ScanCounts(ps, m, at + 1, |ps|, 0, bias', handled + 1, handled + 1, basic);
    ScanEnds(ps, m, Below(ps[at + 1..], m), bias', handled + 1, handled + 1, basic);
  }

  lemma StepsAre(n: nat, m: nat, out: nat)
    requires n <= m
    ensures Steps(n, m, out) == (m - n) * out
  {
  }

  lemma InsertBound(n: nat, m: nat, delta: nat, handled: nat, length: nat)
    requires n <= m <= 0x10_FFFF && delta <= length && handled < length <= SAFE_LENGTH
    ensures delta + Steps(n, m, handled + 1) + 2 * length <= MAX_INT
  {
    ProductOrder(m - n, 0x10_FFFF, handled + 1);
    ProductOrder(handled + 1, SAFE_LENGTH, 0x10_FFFF);
    assert Steps(n, m, handled + 1) <= 0x10_FFFF * SAFE_LENGTH;
  }

  /** The insertions of a sample: each code point and its index, the delta written, and its digits. */
  datatype Insertions = Done | Then(point: nat, at: nat, delta: nat, digits: Spelling, rest: Insertions)

  /** The insertions encode makes from a state on, one for each pass. */
  ghost predicate Makes(ps: seq<CodePoint>, n: nat, delta: nat, bias: nat, handled: nat, basic: nat, steps: Insertions)
    decreases steps
  {
    match steps
    case Done => handled == |ps|
    case Then(m, at, d, digits, rest) =>
      && at < |ps| && n <= ps[at] == m && delta <= |ps|
      && Alone(ps, n, at) && d == Moved(ps, n, delta, handled, at) && Ends(digits, 36, bias) && ValueOf(digits, 36, bias) == d
      && Makes(ps, m + 1, Below(ps[at + 1..], m) + 1, Adapt(d, handled + 1, handled == basic), handled + 1, basic, rest)
  }

  function Text(steps: Insertions): seq<Unit> {
    match steps
    case Done => []
    case Then(_, _, _, digits, rest) => Spelled(digits) + Text(rest)
  }

  lemma {:induction false} MakesText(ps: seq<CodePoint>, n: nat, delta: nat, bias: nat, handled: nat, basic: nat,
                                     steps: Insertions)
    requires Makes(ps, n, delta, bias, handled, basic, steps) && |ps| <= SAFE_LENGTH && handled == |Kept(ps, n, 0)|
    requires n <= 0x11_0000
    ensures Row(ps, n, delta, bias, handled, basic) == Ok(Text(steps))
    decreases steps
  {
    hide Row, Kept, Adapt, Digits, Below, ValueOf, Ends, Spelled, Moved, Alone;
    match steps
    case Done => RowEnds(ps, n, delta, bias, handled, basic);
    case Then(m, at, d, digits, rest) =>
      var bias' := Adapt(d, handled + 1, handled == basic);
      MadeNext(ps, n, delta, bias, handled, basic, m, at, d, digits, rest);
      hide Makes;
      Inserts(ps, n, delta, bias, handled, basic, at, m, d, bias');
      DigitsAre(digits, 36, bias);
      MakesText(ps, m + 1, Below(ps[at + 1..], m) + 1, bias', handled + 1, basic, rest);
  }

  lemma MadeNext(ps: seq<CodePoint>, n: nat, delta: nat, bias: nat, handled: nat, basic: nat, m: nat, at: nat, d: nat,
                 digits: Spelling, rest: Insertions)
    requires Makes(ps, n, delta, bias, handled, basic, Then(m, at, d, digits, rest))
    ensures at < |ps| && n <= ps[at] == m && delta <= |ps| && Alone(ps, n, at) && d == Moved(ps, n, delta, handled, at)
    ensures Ends(digits, 36, bias) && ValueOf(digits, 36, bias) == d
    ensures Makes(ps, m + 1, Below(ps[at + 1..], m) + 1, Adapt(d, handled + 1, handled == basic), handled + 1, basic, rest)
  {
    hide Adapt, Below, ValueOf, Ends, Moved, Alone;
  }

  lemma NothingMore(ps: seq<CodePoint>, n: nat, delta: nat, bias: nat, handled: nat, basic: nat)
    requires handled == |ps|
    ensures Makes(ps, n, delta, bias, handled, basic, Done)
  {
  }

  predicate Away(ps: seq<CodePoint>, n: nat, m: nat) {
    ps == [] || ((ps[0] < n || ps[0] > m) && Away(ps[1..], n, m))
  }

  lemma {:induction false} AwayAre(ps: seq<CodePoint>, n: nat, m: nat)
    requires Away(ps, n, m)
    ensures forall c <- ps :: c < n || c > m
  {
    if ps != [] {
      AwayAre(ps[1..], n, m);
      assert ps == [ps[0]] + ps[1..];
    }
  }

  /** The numbers of one insertion: `before` and `after` are what stands on either side of its code point. */
  predicate Fits(n: nat, delta: nat, bias: nat, out: nat, first: bool, before: seq<CodePoint>, m: nat,
                 after: seq<CodePoint>, d: nat, digits: Spelling, delta': nat, scaled: nat)
    requires out > 0
  {
    && n <= m && Away(before, n, m) && Away(after, n, m)
    && d == delta + (m - n) * out + Below(before, m) && delta' == Below(after, m) + 1
    && Ends(digits, 36, bias) && ValueOf(digits, 36, bias) == d
    && scaled == Scaled(d, out, first)
  }

  lemma MovedIs(ps: seq<CodePoint>, n: nat, delta: nat, handled: nat, before: seq<CodePoint>, m: CodePoint,
                after: seq<CodePoint>)
    requires ps == before + [m] + after && n <= m
    ensures Moved(ps, n, delta, handled, |before|) == delta + (m - n) * (handled + 1) + Below(before, m)
  {
    hide Below;
    assert ps[..|before|] == before;
  }

  lemma AloneIs(ps: seq<CodePoint>, n: nat, before: seq<CodePoint>, m: CodePoint, after: seq<CodePoint>)
    requires ps == before + [m] + after && Away(before, n, m) && Away(after, n, m)
    ensures Alone(ps, n, |before|)
  {
    hide Away;
    AwayAre(before, n, m);
    AwayAre(after, n, m);
    assert forall j :: 0 <= j < |ps| && j != |before| ==> ps[j] in before || ps[j] in after;
  }

  /** The insertion before others. */
  lemma Adds(ps: seq<CodePoint>, n: nat, delta: nat, bias: nat, handled: nat, basic: nat, before: seq<CodePoint>,
             after: seq<CodePoint>, steps: Insertions, out: nat, first: bool, delta': nat, scaled: nat, bias': nat)
    requires steps.Then? && steps.at == |before| && steps.point <= 0x10_FFFF && delta <= |ps|
    requires ps == before + [steps.point] + after && out == handled + 1 && first == (handled == basic)
    requires Fits(n, delta, bias, out, first, before, steps.point, after, steps.delta, steps.digits, delta', scaled)
    requires Settles(scaled, 0, bias')
    requires Makes(ps, steps.point + 1, delta', bias', out, basic, steps.rest)
    ensures Makes(ps, n, delta, bias, handled, basic, steps)
  {
    hide Below, Ends, ValueOf, Settle, Settles, Scaled, Away, Alone, Moved;
    SettlesThere(scaled, 0, bias');
    MovedIs(ps, n, delta, handled, before, steps.point, after);
    AloneIs(ps, n, before, steps.point, after);
    assert ps[|before| + 1..] == after;
  }

  function Ascii(s: string): seq<Unit>
  {
    seq(|s|, k requires 0 <= k < |s| => if s[k] < '\U{0080}' then s[k] as int else 0)
  }

  /** <sono><supiido><de> */
  function SoreSupiidoDe(): seq<CodePoint> {
    [0x305d, 0x306e, 0x30b9, 0x30d4, 0x30fc, 0x30c9, 0x3067]
  }

  function SoreSupiidoDe1(): Insertions {
    Then(0x30fc, 4, 280, More(25, Last(15)), Done)
  }

  lemma SoreSupiidoDe1Fits()
    ensures Fits(12501, 3, 17, 7, false, [0x305d, 0x306e, 0x30b9, 0x30d4], 0x30fc, [0x30c9, 0x3067], 280,
                 More(25, Last(15)), 3, 160)
  {
  }

  lemma SoreSupiidoDe1Made()
    ensures Makes(SoreSupiidoDe(), 12501, 3, 17, 6, 0, SoreSupiidoDe1())
  {
    hide Fits, Makes, ValueOf, Ends, Below, Away;
    SoreSupiidoDe1Fits();
    NothingMore(SoreSupiidoDe(), 12541, 3, 29, 7, 0);
    Adds(SoreSupiidoDe(), 12501, 3, 17, 6, 0, [0x305d, 0x306e, 0x30b9, 0x30d4], [0x30c9, 0x3067],
         SoreSupiidoDe1(), 7, false, 3, 160, 29);
  }

  function SoreSupiidoDe2(): Insertions {
    Then(0x30d4, 3, 65, More(25, Last(2)), SoreSupiidoDe1())
  }

  lemma SoreSupiidoDe2Fits()
    ensures Fits(12490, 2, 20, 6, false, [0x305d, 0x306e, 0x30b9], 0x30d4, [0x30fc, 0x30c9, 0x3067], 65,
                 More(25, Last(2)), 3, 37)
  {
  }

  lemma SoreSupiidoDe2Made()
    ensures Makes(SoreSupiidoDe(), 12490, 2, 20, 5, 0, SoreSupiidoDe2())
  {
    hide Fits, Makes, ValueOf, Ends, Below, Away;
    SoreSupiidoDe2Fits();
    SoreSupiidoDe1Made();
    Adds(SoreSupiidoDe(), 12490, 2, 20, 5, 0, [0x305d, 0x306e, 0x30b9], [0x30fc, 0x30c9, 0x3067],
         SoreSupiidoDe2(), 6, false, 3, 37, 17);
  }

  function SoreSupiidoDe3(): Insertions {
    Then(0x30c9, 5, 80, More(22, Last(2)), SoreSupiidoDe2())
  }

  lemma SoreSupiidoDe3Fits()
    ensures Fits(12474, 2, 29, 5, false, [0x305d, 0x306e, 0x30b9, 0x30d4, 0x30fc], 0x30c9, [0x3067], 80,
                 More(22, Last(2)), 2, 48)
  {
  }

  lemma SoreSupiidoDe3Made()
    ensures Makes(SoreSupiidoDe(), 12474, 2, 29, 4, 0, SoreSupiidoDe3())
  {
    hide Fits, Makes, ValueOf, Ends, Below, Away;
    SoreSupiidoDe3Fits();
    SoreSupiidoDe2Made();
    Adds(SoreSupiidoDe(), 12474, 2, 29, 4, 0, [0x305d, 0x306e, 0x30b9, 0x30d4, 0x30fc], [0x3067],
         SoreSupiidoDe3(), 5, false, 2, 48, 20);
  }

  function SoreSupiidoDe4(): Insertions {
    Then(0x30b9, 2, 300, More(30, More(27, Last(0))), SoreSupiidoDe3())
  }

  lemma SoreSupiidoDe4Fits()
    ensures Fits(12399, 2, 9, 4, false, [0x305d, 0x306e], 0x30b9, [0x30d4, 0x30fc, 0x30c9, 0x3067], 300,
                 More(30, More(27, Last(0))), 2, 187)
  {
  }

  lemma SoreSupiidoDe4Made()
    ensures Makes(SoreSupiidoDe(), 12399, 2, 9, 3, 0, SoreSupiidoDe4())
  {
    hide Fits, Makes, ValueOf, Ends, Below, Away;
    SoreSupiidoDe4Fits();
    SoreSupiidoDe3Made();
    Adds(SoreSupiidoDe(), 12399, 2, 9, 3, 0, [0x305d, 0x306e], [0x30d4, 0x30fc, 0x30c9, 0x3067],
         SoreSupiidoDe4(), 4, false, 2, 187, 29);
  }

  function SoreSupiidoDe5(): Insertions {
    Then(0x306e, 1, 20, Last(20), SoreSupiidoDe4())
  }

  lemma SoreSupiidoDe5Fits()
    ensures Fits(12392, 1, 10, 3, false, [0x305d], 0x306e, [0x30b9, 0x30d4, 0x30fc, 0x30c9, 0x3067], 20,
                 Last(20), 2, 13)
  {
  }

  lemma SoreSupiidoDe5Made()
    ensures Makes(SoreSupiidoDe(), 12392, 1, 10, 2, 0, SoreSupiidoDe5())
  {
    hide Fits, Makes, ValueOf, Ends, Below, Away;
    SoreSupiidoDe5Fits();
    SoreSupiidoDe4Made();
    Adds(SoreSupiidoDe(), 12392, 1, 10, 2, 0, [0x305d], [0x30b9, 0x30d4, 0x30fc, 0x30c9, 0x3067],
         SoreSupiidoDe5(), 3, false, 2, 13, 9);
  }

  function SoreSupiidoDe6(): Insertions {
    Then(0x3067, 6, 20, More(20, Last(0)), SoreSupiidoDe5())
  }

  lemma SoreSupiidoDe6Fits()
    ensures Fits(12382, 1, 17, 2, false, [0x305d, 0x306e, 0x30b9, 0x30d4, 0x30fc, 0x30c9], 0x3067, [], 20,
                 More(20, Last(0)), 1, 15)
  {
  }

  lemma SoreSupiidoDe6Made()
    ensures Makes(SoreSupiidoDe(), 12382, 1, 17, 1, 0, SoreSupiidoDe6())
  {
    hide Fits, Makes, ValueOf, Ends, Below, Away;
    SoreSupiidoDe6Fits();
    SoreSupiidoDe5Made();
    Adds(SoreSupiidoDe(), 12382, 1, 17, 1, 0, [0x305d, 0x306e, 0x30b9, 0x30d4, 0x30fc, 0x30c9], [],
         SoreSupiidoDe6(), 2, false, 1, 15, 10);
  }

  function SoreSupiidoDe7(): Insertions {
    Then(0x305d, 0, 12253, More(3, More(35, Last(9))), SoreSupiidoDe6())
  }

  lemma SoreSupiidoDe7Fits()
    ensures Fits(128, 0, 72, 1, true, [], 0x305d, [0x306e, 0x30b9, 0x30d4, 0x30fc, 0x30c9, 0x3067], 12253,
                 More(3, More(35, Last(9))), 1, 34)
  {
  }

  lemma SoreSupiidoDe7Made()
    ensures Makes(SoreSupiidoDe(), 128, 0, 72, 0, 0, SoreSupiidoDe7())
  {
    hide Fits, Makes, ValueOf, Ends, Below, Away;
    SoreSupiidoDe7Fits();
    SoreSupiidoDe6Made();
    Adds(SoreSupiidoDe(), 128, 0, 72, 0, 0, [], [0x306e, 0x30b9, 0x30d4, 0x30fc, 0x30c9, 0x3067],
         SoreSupiidoDe7(), 1, true, 1, 34, 17);
  }

  /** 3<nen>B<gumi><kinpachi><sensei> */
  function SannenBgumi(): seq<CodePoint> {
    [0x33, 0x5e74, 0x42, 0x7d44, 0x91d1, 0x516b, 0x5148, 0x751f]
  }

  function SannenBgumi1(): Insertions {
    Then(0x91d1, 4, 42088, More(18, More(24, More(28, Last(1)))), Done)
  }

  lemma SannenBgumi1Fits()
    ensures Fits(32069, 4, 67, 8, false, [0x33, 0x5e74, 0x42, 0x7d44], 0x91d1, [0x516b, 0x5148, 0x751f], 42088,
                 More(18, More(24, More(28, Last(1)))), 4, 23674)
  {
  }

  lemma SannenBgumi1Made()
    ensures Makes(SannenBgumi(), 32069, 4, 67, 7, 2, SannenBgumi1())
  {
    hide Fits, Makes, ValueOf, Ends, Below, Away;
    SannenBgumi1Fits();
    NothingMore(SannenBgumi(), 37330, 4, 84, 8, 2);
    Adds(SannenBgumi(), 32069, 4, 67, 7, 2, [0x33, 0x5e74, 0x42, 0x7d44], [0x516b, 0x5148, 0x751f],
         SannenBgumi1(), 8, false, 4, 23674, 84);
  }

  function SannenBgumi2(): Insertions {
    Then(0x7d44, 3, 14592, More(32, More(31, Last(11))), SannenBgumi1())
  }

  lemma SannenBgumi2Fits()
    ensures Fits(29984, 1, 82, 7, false, [0x33, 0x5e74, 0x42], 0x7d44, [0x91d1, 0x516b, 0x5148, 0x751f], 14592,
                 More(32, More(31, Last(11))), 4, 8338)
  {
  }

  lemma SannenBgumi2Made()
    ensures Makes(SannenBgumi(), 29984, 1, 82, 6, 2, SannenBgumi2())
  {
    hide Fits, Makes, ValueOf, Ends, Below, Away;
    SannenBgumi2Fits();
    SannenBgumi1Made();
    Adds(SannenBgumi(), 29984, 1, 82, 6, 2, [0x33, 0x5e74, 0x42], [0x91d1, 0x516b, 0x5148, 0x751f],
         SannenBgumi2(), 7, false, 4, 8338, 67);
  }

  function SannenBgumi3(): Insertions {
    Then(0x751f, 7, 34821, More(31, More(33, More(31, Last(0)))), SannenBgumi2())
  }

  lemma SannenBgumi3Fits()
    ensures Fits(24181, 4, 67, 6, false, [0x33, 0x5e74, 0x42, 0x7d44, 0x91d1, 0x516b, 0x5148], 0x751f, [], 34821,
                 More(31, More(33, More(31, Last(0)))), 1, 20311)
  {
  }

  lemma SannenBgumi3Made()
    ensures Makes(SannenBgumi(), 24181, 4, 67, 5, 2, SannenBgumi3())
  {
    hide Fits, Makes, ValueOf, Ends, Below, Away;
    SannenBgumi3Fits();
    SannenBgumi2Made();
    Adds(SannenBgumi(), 24181, 4, 67, 5, 2, [0x33, 0x5e74, 0x42, 0x7d44, 0x91d1, 0x516b, 0x5148], [],
         SannenBgumi3(), 6, false, 1, 20311, 82);
  }

  function SannenBgumi4(): Insertions {
    Then(0x5e74, 1, 16683, More(27, More(34, More(26, Last(4)))), SannenBgumi3())
  }

  lemma SannenBgumi4Fits()
    ensures Fits(20844, 2, 24, 5, false, [0x33], 0x5e74, [0x42, 0x7d44, 0x91d1, 0x516b, 0x5148, 0x751f], 16683,
                 More(27, More(34, More(26, Last(4)))), 4, 10009)
  {
  }

  lemma SannenBgumi4Made()
    ensures Makes(SannenBgumi(), 20844, 2, 24, 4, 2, SannenBgumi4())
  {
    hide Fits, Makes, ValueOf, Ends, Below, Away;
    SannenBgumi4Fits();
    SannenBgumi3Made();
    Adds(SannenBgumi(), 20844, 2, 24, 4, 2, [0x33], [0x42, 0x7d44, 0x91d1, 0x516b, 0x5148, 0x751f],
         SannenBgumi4(), 5, false, 4, 10009, 67);
  }

  function SannenBgumi5(): Insertions {
    Then(0x516b, 5, 139, More(31, Last(4)), SannenBgumi4())
  }

  lemma SannenBgumi5Fits()
    ensures Fits(20809, 1, 27, 4, false, [0x33, 0x5e74, 0x42, 0x7d44, 0x91d1], 0x516b, [0x5148, 0x751f], 139,
                 More(31, Last(4)), 2, 86)
  {
  }

  lemma SannenBgumi5Made()
    ensures Makes(SannenBgumi(), 20809, 1, 27, 3, 2, SannenBgumi5())
  {
    hide Fits, Makes, ValueOf, Ends, Below, Away;
    SannenBgumi5Fits();
    SannenBgumi4Made();
    Adds(SannenBgumi(), 20809, 1, 27, 3, 2, [0x33, 0x5e74, 0x42, 0x7d44, 0x91d1], [0x5148, 0x751f],
         SannenBgumi5(), 4, false, 2, 86, 24);
  }

  function SannenBgumi6(): Insertions {
    Then(0x5148, 6, 62042, More(22, More(22, More(30, Last(2)))), SannenBgumi5())
  }

  lemma SannenBgumi6Fits()
    ensures Fits(128, 0, 72, 3, true, [0x33, 0x5e74, 0x42, 0x7d44, 0x91d1, 0x516b], 0x5148, [0x751f], 62042,
                 More(22, More(22, More(30, Last(2)))), 1, 117)
  {
  }

  lemma SannenBgumi6Made()
    ensures Makes(SannenBgumi(), 128, 0, 72, 2, 2, SannenBgumi6())
  {
    hide Fits, Makes, ValueOf, Ends, Below, Away;
    SannenBgumi6Fits();
    SannenBgumi5Made();
    Adds(SannenBgumi(), 128, 0, 72, 2, 2, [0x33, 0x5e74, 0x42, 0x7d44, 0x91d1, 0x516b], [0x751f],
         SannenBgumi6(), 3, true, 1, 117, 27);
  }

  lemma BasicsOfSannenBgumi()
    ensures Basics(SannenBgumi()) == [0x33, 0x42]
  {
    hide Basics;
    BasicsJoin([0x33, 0x5e74, 0x42], [0x7d44, 0x91d1, 0x516b, 0x5148, 0x751f]);
    BasicsJoin([0x33], [0x5e74, 0x42]);
    BasicsJoin([0x5e74], [0x42]);
    NoBasics([0x5e74]);
    NoBasics([0x7d44, 0x91d1, 0x516b, 0x5148, 0x751f]);
    OneBasic(0x33);
    OneBasic(0x42);
    assert SannenBgumi() == [0x33, 0x5e74, 0x42] + [0x7d44, 0x91d1, 0x516b, 0x5148, 0x751f];
    assert [0x33, 0x5e74, 0x42] == [0x33] + [0x5e74, 0x42] && [0x5e74, 0x42] == [0x5e74] + [0x42];
  }

  lemma OneBasic(c: CodePoint)
    requires c < 0x80
    ensures Basics([c]) == [c]
  {
  }

  lemma {:induction false} NoBasics(ps: seq<CodePoint>)
    requires forall k :: 0 <= k < |ps| ==> ps[k] >= 0x80
    ensures Basics(ps) == []
  {
    if ps != [] {
      NoBasics(ps[..|ps| - 1]);
    }
  }

  lemma {:induction false} BasicsJoin(a: seq<CodePoint>, b: seq<CodePoint>)
    ensures Basics(a + b) == Basics(a) + Basics(b)
  {
    if b == [] {
      assert a + b == a;
    } else {
      var last := |b| - 1;
      assert (a + b)[..|a + b| - 1] == a + b[..last];
      BasicsJoin(a, b[..last]);
    }
  }

  lemma Sample(ps: seq<CodePoint>, steps: Insertions, text: seq<Unit>)
    requires Makes(ps, 128, 0, 72, |Basics(ps)|, |Basics(ps)|, steps) && |ps| <= SAFE_LENGTH
    requires text == Header(ps) + Text(steps)
    ensures Encoded(ps) == Ok(text)
  {
    hide Row, Kept, Makes, Text;
    MakesText(ps, 128, 0, 72, |Basics(ps)|, |Basics(ps)|, steps);
  }

  /** Section 7.1's (R), as encode writes it. */
  lemma SoreSupiidoDeEncodes()
    ensures Encoded(SoreSupiidoDe()) == Ok(Ascii("d9juau41awczczp"))
  {
    hide Row, Kept, Makes, Basics, Encoded;
    SoreSupiidoDe7Made();
    NoBasics(SoreSupiidoDe());
    Sample(SoreSupiidoDe(), SoreSupiidoDe7(), Ascii("d9juau41awczczp"));
  }

  /** And its (L). */
  lemma SannenBgumiEncodes()
    ensures Encoded(SannenBgumi()) == Ok(Ascii("3B-ww4c5e180e575a65lsy2b"))
  {
    hide Row, Kept, Makes, Basics, Encoded;
    SannenBgumi6Made();
    BasicsOfSannenBgumi();
    Sample(SannenBgumi(), SannenBgumi6(), Ascii("3B-ww4c5e180e575a65lsy2b"));
  }
}
