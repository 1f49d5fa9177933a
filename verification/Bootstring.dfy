/** The Bootstring arithmetic of RFC 3492: digits, thresholds, bias adaptation and variable-length integers. */
module Bootstring {
  import opened Wrappers
  import opened Ucs2

  const MAX_INT := 0x7FFF_FFFF
  const BASE := 36
  const T_MIN := 1
  const T_MAX := 26
  const SKEW := 38
  const DAMP := 700
  const INITIAL_BIAS := 72
  const INITIAL_N := 128
  const DELIMITER: Unit := 0x2D

  datatype Problem = Overflow | NotBasic | InvalidInput | InvalidCodePoint

  /** basicToDigit: the value of a basic code point, or BASE where it has none. */
  function BasicToDigit(unit: Unit): (digit: nat)
    ensures digit <= BASE
  {
    if 0x30 <= unit < 0x3A then 26 + (unit - 0x30)
    else if 0x41 <= unit < 0x5B then unit - 0x41
    else if 0x61 <= unit < 0x7B then unit - 0x61
    else BASE
  }

  function DigitToBasic(digit: nat): (unit: Unit)
    requires digit < BASE
  {
    digit + 22 + (if digit < 26 then 75 else 0)
  }

  lemma DigitsInvert(digit: nat)
    requires digit < BASE
    ensures BasicToDigit(DigitToBasic(digit)) == digit
    ensures DigitToBasic(digit) != DELIMITER && DigitToBasic(digit) < 0x80
  {
  }

  /** The threshold of the digit at weight position k. */
  function Threshold(k: nat, bias: nat): (t: nat)
    ensures T_MIN <= t <= T_MAX
  {
    if k <= bias then T_MIN else if k >= bias + T_MAX then T_MAX else k - bias
  }

  function Settle(delta: nat, k: nat): nat
    decreases delta
  {
    if delta > 455 then Settle(delta / 35, k + BASE) else k + 36 * delta / (delta + SKEW)
  }

  function Scaled(delta: nat, numPoints: nat, firstTime: bool): nat
    requires numPoints > 0
  {
    var scaled := if firstTime then delta / DAMP else delta / 2;
    scaled + scaled / numPoints
  }

  /** adapt: the bias after a delta. */
  function Adapt(delta: nat, numPoints: nat, firstTime: bool): nat
    requires numPoints > 0
  {
    Settle(Scaled(delta, numPoints, firstTime), 0)
  }

  method ComputeAdapt(delta: nat, numPoints: nat, firstTime: bool) returns (bias: nat)
    requires numPoints > 0
    ensures bias == Adapt(delta, numPoints, firstTime)
  {
    var k: nat := 0;
    var left: nat := if firstTime then delta / DAMP else delta / 2;
    left := left + left / numPoints;
    while left > (BASE - T_MIN) * T_MAX / 2
      invariant Settle(left, k) == Adapt(delta, numPoints, firstTime)
    {
      left := left / (BASE - T_MIN);
      k := k + BASE;
    }
    bias := k + (BASE - T_MIN + 1) * left / (left + SKEW);
  }

  /** No 31-bit delta adapts to a bias past the fifth digit's weight. */
  const BIAS_LIMIT := 215

  /** The largest delta that settles within a number of divisions by 35. */
  function Reach(divisions: nat): nat {
    if divisions == 0 then 455 else 35 * Reach(divisions - 1) + 34
  }

  lemma {:induction false} SettleBound(delta: nat, k: nat, divisions: nat)
    requires delta <= Reach(divisions)
    ensures Settle(delta, k) <= k + BASE * divisions + 35
  {
    if delta > 455 {
      SettleBound(delta / 35, k + BASE, divisions - 1);
    } else {
      assert 36 * delta < 36 * (delta + SKEW);
    }
  }

  lemma AdaptBound(delta: nat, numPoints: nat, firstTime: bool)
    requires delta <= MAX_INT && numPoints > 0
    ensures Adapt(delta, numPoints, firstTime) <= BIAS_LIMIT
  {
    assert Reach(5) >= MAX_INT by {
      assert Reach(1) == 15959 && Reach(2) == 558599 && Reach(3) == 19550999;
    }
    SettleBound(Scaled(delta, numPoints, firstTime), 0, 5);
  }

  /**
   * Where half the delta is below either count of points, the count does not matter: the encoder adapts a code
   * point repeated in one pass with the count at the pass's start, the decoder with the count so far.
   */
  lemma AdaptIgnoresCount(delta: nat, a: nat, b: nat)
    requires a > 0 && b > 0 && delta / 2 < a && delta / 2 < b
    ensures Adapt(delta, a, false) == Adapt(delta, b, false)
  {
    assert delta / 2 / a == 0 && delta / 2 / b == 0;
  }

  /** What of a value is left for the digits after one with threshold t. */
  function Remainder(q: nat, t: nat): (r: nat)
    requires T_MIN <= t <= T_MAX && t <= q
    ensures r < q
  {
    var d := BASE - t;
    assert (q - t) / d * d <= q - t;
    assert (q - t) / d <= (q - t) / d * d;
    (q - t) / d
  }

  /** A generalized variable-length integer (section 3.3 of RFC 3492) from weight position k on. */
  function Digits(q: nat, k: nat, bias: nat): (units: seq<Unit>)
    ensures units != []
    decreases q
  {
    var t := Threshold(k, bias);
    if q < t then [DigitToBasic(q)]
    else
      var digit: nat := t + (q - t) % (BASE - t);
      [DigitToBasic(digit)] + Digits(Remainder(q, t), k + BASE, bias)
  }

  /** What the decoder reads one integer as: the position after it and the text left. */
  datatype Read = Read(i: nat, rest: seq<Unit>)

  function ReadDigits(text: seq<Unit>, i: nat, w: nat, k: nat, bias: nat): (r: Result<Read, Problem>)
    requires w > 0
    ensures r.Ok? ==> i <= r.value.i && |r.value.rest| < |text|
    decreases |text|
  {
    if text == [] then Err(InvalidInput)
    else
      var digit := BasicToDigit(text[0]);
      if digit >= BASE then Err(InvalidInput)
      else if digit > (MAX_INT - i) / w then Err(Overflow)
      else
        var t := Threshold(k, bias);
        if digit < t then Ok(Read(i + digit * w, text[1..]))
        else if w > MAX_INT / (BASE - t) then Err(Overflow)
        else ReadDigits(text[1..], i + digit * w, w * (BASE - t), k + BASE, bias)
  }

  /** How large a weight can be at position k: only the first six positions can multiply by 35. */
  function WeightLimit(k: nat): nat {
    if k <= 36 then 1 else if k <= 72 then 35 else if k <= 108 then 1225 else if k <= 144 then 42875
    else if k <= 180 then 1500625 else 52521875
  }

  ghost predicate WeightOk(w: nat, k: nat, bias: nat) {
    && w > 0
    && k % BASE == 0 && k >= BASE
    && bias <= BIAS_LIMIT
    && (k < bias + T_MAX ==> w <= WeightLimit(k))
  }

  /** A digit that is not the last never pushes the weight past 31 bits unless the value itself is past them. */
  lemma WeightStep(w: nat, k: nat, bias: nat, rest: nat)
    requires WeightOk(w, k, bias) && Threshold(k, bias) * w + rest <= MAX_INT
    ensures w * (BASE - Threshold(k, bias)) <= MAX_INT
    ensures WeightOk(w * (BASE - Threshold(k, bias)), k + BASE, bias)
  {
    var t := Threshold(k, bias);
    if k >= bias + T_MAX {
      assert w * 10 <= 26 * w;
    } else {
      assert k <= 216;
      assert w * (BASE - t) <= w * 35;
      if k + BASE < bias + T_MAX {
        assert k <= 180;
      }
    }
  }

  /** Reading one digit, its checks as bounds on the products. */
  lemma ReadOne(digit: nat, rest: seq<Unit>, i: nat, w: nat, k: nat, bias: nat)
    requires w > 0 && digit < BASE
    ensures ReadDigits([DigitToBasic(digit)] + rest, i, w, k, bias)
         == if i + digit * w > MAX_INT then Err(Overflow)
            else if digit < Threshold(k, bias) then Ok(Read(i + digit * w, rest))
            else if w * (BASE - Threshold(k, bias)) > MAX_INT then Err(Overflow)
            else ReadDigits(rest, i + digit * w, w * (BASE - Threshold(k, bias)), k + BASE, bias)
  {
    var text := [DigitToBasic(digit)] + rest;
    DigitsInvert(digit);
    assert text[1..] == rest;
    DivisionBound(digit, MAX_INT - i, w);
    DivisionBound(w, MAX_INT, BASE - Threshold(k, bias));
  }

  /**
   * Variable-length integers delimit themselves and read back: the decoder stops at the last digit, having moved by
   * exactly the value, and reports an overflow just when the position it would reach is past 31 bits.
   */
  lemma {:induction false} ReadsBack(q: nat, rest: seq<Unit>, i: nat, w: nat, k: nat, bias: nat)
    requires WeightOk(w, k, bias)
    ensures ReadDigits(Digits(q, k, bias) + rest, i, w, k, bias)
         == if i + q * w <= MAX_INT then Ok(Read(i + q * w, rest)) else Err(Overflow)
    decreases q
  {
    hide ReadDigits;
    var t := Threshold(k, bias);
    if q < t {
      assert Digits(q, k, bias) + rest == [DigitToBasic(q)] + rest;
      ReadOne(q, rest, i, w, k, bias);
    } else {
      var d := BASE - t;
      var digit: nat := t + (q - t) % d;
      var q' := Remainder(q, t);
      var more := Digits(q', k + BASE, bias);
      assert Digits(q, k, bias) + rest == [DigitToBasic(digit)] + (more + rest);
      ReadOne(digit, more + rest, i, w, k, bias);
      Split(q, t, w);
      var moved, next, whole := digit * w, w * d, q * w;
      assert whole == moved + q' * next;
      if i + moved > MAX_INT {
        assert i + whole > MAX_INT;
      } else {
        WeightStep(w, k, bias, i);
        ReadsBack(q', rest, i + moved, next, k + BASE, bias);
        assert ReadDigits(Digits(q, k, bias) + rest, i, w, k, bias)
            == ReadDigits(more + rest, i + moved, next, k + BASE, bias);
        assert i + moved + q' * next == i + whole;
      }
    }
  }

  /** A value's weight is its first digit's and the rest's at the next weight. */
  lemma Split(q: nat, t: nat, w: nat)
    requires T_MIN <= t <= T_MAX && t <= q
    ensures t <= t + (q - t) % (BASE - t) < BASE
    ensures q * w == (t + (q - t) % (BASE - t)) * w + Remainder(q, t) * (w * (BASE - t))
    ensures 0 <= t * w <= (t + (q - t) % (BASE - t)) * w <= q * w
  {
    var d := BASE - t;
    var digit: nat := t + (q - t) % d;
    assert q == digit + Remainder(q, t) * d;
    Distribute(digit, Remainder(q, t), d, w);
    ProductOrder(t, digit, w);
    ProductOrder(digit, q, w);
  }

  lemma ProductOrder(a: nat, b: nat, w: nat)
    requires a <= b
    ensures a * w <= b * w
  {
  }

  lemma Distribute(digit: nat, q: nat, d: nat, w: nat)
    ensures (digit + q * d) * w == digit * w + q * (w * d)
  {
  }

  lemma DivisionBound(x: nat, limit: int, w: nat)
    requires w > 0
    ensures x > limit / w <==> x * w > limit
  {
    var p := limit / w;
    assert p * w <= limit < p * w + w;
    if x > p {
      assert (x - p - 1) * w >= 0;
    } else {
      assert (p - x) * w >= 0;
    }
  }
}
