/** RFC 3492's formulas in numbers: thresholds, bias adaptation and variable-length integers are the RFC's own. */
module PunycodeFormulas {
  import opened Arithmetic
  import opened Ucs2
  import opened Bootstring

  /** Section 5's digits: the letters, written small and read in either case, and then the ten numerals. */
  lemma DigitsAreLettersThenNumerals(d: nat)
    requires d < 36
    ensures DigitToBasic(d) == if d < 26 then 'a' as int + d else '0' as int + d - 26
    ensures d < 26 ==> BasicToDigit('A' as int + d) == BasicToDigit('a' as int + d) == d
    ensures d >= 26 ==> BasicToDigit('0' as int + d - 26) == d
  {
  }

  lemma NothingElseIsADigit(u: Unit)
    ensures BasicToDigit(u) == BASE <==>
              !('a' as int <= u <= 'z' as int || 'A' as int <= u <= 'Z' as int || '0' as int <= u <= '9' as int)
  {
  }

  /** Section 6.2's thresholds, `k - bias` held between 1 and 26. */
  lemma ThresholdIsClamped(k: nat, bias: nat)
    ensures Threshold(k, bias) == if k - bias < 1 then 1 else if k - bias > 26 then 26 else k - bias
  {
  }

  /** x divided by 35 a number of times. */
  function Divided(x: nat, times: nat): nat {
    if times == 0 then x else Divided(x, times - 1) / 35
  }

  lemma {:induction false} DividedFirst(x: nat, times: nat)
    ensures Divided(x, times + 1) == Divided(x / 35, times)
  {
    if times > 0 {
      DividedFirst(x, times - 1);
    }
  }

  lemma {:induction false} SettlesAt(x: nat, k: nat) returns (times: nat)
    ensures Divided(x, times) <= 455 && forall d: nat :: d < times ==> Divided(x, d) > 455
    ensures Settle(x, k) == k + 36 * times + 36 * Divided(x, times) / (Divided(x, times) + 38)
    decreases x
  {
    if x <= 455 {
      times := 0;
    } else {
      var rest := SettlesAt(x / 35, k + 36);
      times := rest + 1;
      DividedFirst(x, rest);
      forall d: nat | d < times ensures Divided(x, d) > 455 {
        if d > 0 { DividedFirst(x, d - 1); }
      }
    }
  }

  /**
   * Section 6.1's adapt: the delta is scaled by 700 the first time and by 2 after, a share of it for each code point is
   * added, it is divided by 35 until it first is at most 455, and the bias is 36 for each division and the skewed rest.
   */
  lemma AdaptIs(delta: nat, numPoints: nat, firstTime: bool, half: nat, scaled: nat) returns (times: nat)
    requires numPoints > 0 && half == (if firstTime then delta / 700 else delta / 2) && scaled == half + half / numPoints
    ensures Divided(scaled, times) <= 455 && forall d: nat :: d < times ==> Divided(scaled, d) > 455
    ensures Adapt(delta, numPoints, firstTime)
         == 36 * times + 36 * Divided(scaled, times) / (Divided(scaled, times) + 38)
  {
    times := SettlesAt(Scaled(delta, numPoints, firstTime), 0);
  }

  /** The bias of a scaled delta, told by products: between the two biases the skewed rest lies between. */
  predicate Settles(d: nat, k: nat, bias: nat)
    decreases d
  {
    var next := d / 35;
    if d > 455 then Settles(next, k + 36, bias)
    else bias >= k && (bias - k) * (d + 38) <= 36 * d < (bias - k + 1) * (d + 38)
  }

  lemma {:induction false} SettlesThere(d: nat, k: nat, bias: nat)
    requires Settles(d, k, bias)
    ensures Settle(d, k) == bias
    decreases d
  {
    if d > 455 {
      SettlesThere(d / 35, k + 36, bias);
    } else {
      DivideRows(36 * d, bias - k, d + 38, 36 * d - (bias - k) * (d + 38));
    }
  }

  /** An integer's digits, the least significant first. */
  datatype Spelling = Last(digit: nat) | More(digit: nat, rest: Spelling)

  /** What they stand for: each weighs 36 less the threshold before it times as much as that one. */
  function ValueOf(s: Spelling, k: nat, bias: nat): nat {
    match s
    case Last(d) => d
    case More(d, rest) => d + (36 - Threshold(k, bias)) * ValueOf(rest, k + 36, bias)
  }

  /** Only the last digit is below its threshold. */
  predicate Ends(s: Spelling, k: nat, bias: nat) {
    match s
    case Last(d) => d < Threshold(k, bias)
    case More(d, rest) => Threshold(k, bias) <= d < 36 && Ends(rest, k + 36, bias)
  }

  function Spelled(s: Spelling): seq<Unit> {
    match s
    case Last(d) => [if d < 36 then DigitToBasic(d) else DELIMITER]
    case More(d, rest) => [if d < 36 then DigitToBasic(d) else DELIMITER] + Spelled(rest)
  }

  /** Section 3.3's integers: a value is written as the digits that end where they should and stand for it. */
  lemma {:induction false} DigitsAre(s: Spelling, k: nat, bias: nat)
    requires Ends(s, k, bias)
    ensures Digits(ValueOf(s, k, bias), k, bias) == Spelled(s)
    decreases s
  {
    hide Threshold, Digits;
    match s
    case Last(d) => DigitsLast(d, k, bias);
    case More(d, rest) =>
      DigitsGoOn(ValueOf(s, k, bias), k, bias, Threshold(k, bias), d, ValueOf(rest, k + 36, bias));
      DigitsAre(rest, k + 36, bias);
  }

  lemma DigitsLast(d: nat, k: nat, bias: nat)
    requires d < Threshold(k, bias)
    ensures d < 36 && Digits(d, k, bias) == [DigitToBasic(d)]
  {
  }

  lemma DigitsGoOn(q: nat, k: nat, bias: nat, t: nat, digit: nat, rest: nat)
    requires t == Threshold(k, bias) && t <= digit < 36 && q == digit + (36 - t) * rest
    ensures q >= t && Digits(q, k, bias) == [DigitToBasic(digit)] + Digits(rest, k + 36, bias)
  {
    hide Threshold, Digits;
    assert rest * (36 - t) == (36 - t) * rest;
    DivideRows(q - t, rest, 36 - t, digit - t);
    DigitsFirst(q, k, bias, t);
  }

  lemma DigitsFirst(q: nat, k: nat, bias: nat, t: nat)
    requires t == Threshold(k, bias) && t <= q
    ensures 0 <= t + (q - t) % (36 - t) < 36 && (q - t) / (36 - t) >= 0
    ensures Digits(q, k, bias) == [DigitToBasic(t + (q - t) % (36 - t))] + Digits((q - t) / (36 - t), k + 36, bias)
  {
    hide Threshold;
  }

  lemma Divides(x: nat, d: nat)
    requires d > 0
    ensures d * (x / d) + x % d == x
  {
  }

  /** Every value has such digits. */
  lemma {:induction false} DigitsThere(q: nat, k: nat, bias: nat) returns (s: Spelling)
    ensures Ends(s, k, bias) && ValueOf(s, k, bias) == q
    decreases q
  {
    hide Threshold;
    var t := Threshold(k, bias);
    if q < t {
      s := Last(q);
    } else {
      var rest := DigitsThere(Remainder(q, t), k + 36, bias);
      s := More(t + (q - t) % (36 - t), rest);
      Divides(q - t, 36 - t);
      assert Remainder(q, t) == (q - t) / (36 - t);
    }
  }
}
