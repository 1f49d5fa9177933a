/** Hexadecimal words and decimal bytes as an address writes them. */
module Numerals {
  import opened Strings

  predicate IsDecimal(c: char) {
    '0' <= c <= '9'
  }

  predicate IsHex(c: char) {
    IsDecimal(c) || 'a' <= c <= 'f' || 'A' <= c <= 'F'
  }

  function DigitValue(c: char): (n: nat)
    requires IsHex(c)
    ensures n < 16 && (IsDecimal(c) ==> n < 10)
  {
    if IsDecimal(c) then (c - '0') as nat else if 'a' <= c <= 'f' then (c - 'a') as nat + 10 else (c - 'A') as nat + 10
  }

  function Digit(n: nat): (c: char)
    requires n < 16
    ensures IsHex(c) && DigitValue(c) == n && (n < 10 ==> IsDecimal(c))
  {
    if n < 10 then '0' + n as char else 'a' + (n - 10) as char
  }

  predicate Digits(s: string, radix: nat) {
    forall k :: 0 <= k < |s| ==> IsHex(s[k]) && DigitValue(s[k]) < radix
  }

  /** A number without leading zeros. */
  function Numeral(n: nat, radix: nat): (s: string)
    requires 2 <= radix <= 16
    ensures s != []
  {
    if n < radix then [Digit(n)] else Numeral(n / radix, radix) + [Digit(n % radix)]
  }

  function Value(s: string, radix: nat): nat
    requires Digits(s, radix)
  {
    if s == [] then 0 else radix * Value(s[..|s| - 1], radix) + DigitValue(s[|s| - 1])
  }

  lemma {:induction false} NumeralReads(n: nat, radix: nat)
    requires 2 <= radix <= 16
    ensures Digits(Numeral(n, radix), radix) && Value(Numeral(n, radix), radix) == n
    ensures Numeral(n, radix)[0] == '0' <==> n == 0
    decreases n
  {
    if n < radix {
      assert [Digit(n)][..0] == [];
      assert Value([], radix) == 0;
    } else {
      DivMod(n, radix);
      NumeralReads(n / radix, radix);
      Appended(Numeral(n / radix, radix), Digit(n % radix), radix);
    }
  }

  lemma DivMod(n: nat, radix: nat)
    requires 2 <= radix <= n
    ensures radix * (n / radix) + n % radix == n && 0 < n / radix < n
  {
  }

  lemma Appended(s: string, c: char, radix: nat)
    requires Digits(s, radix) && IsHex(c) && DigitValue(c) < radix
    ensures Digits(s + [c], radix) && Value(s + [c], radix) == radix * Value(s, radix) + DigitValue(c)
  {
    assert (s + [c])[..|s|] == s;
  }

  function Power(radix: nat, k: nat): nat {
    if k == 0 then 1 else radix * Power(radix, k - 1)
  }

  lemma {:induction false} NumeralShort(n: nat, radix: nat, k: nat)
    requires 2 <= radix <= 16 && 0 < k && n < Power(radix, k)
    ensures |Numeral(n, radix)| <= k
    decreases k
  {
    if k == 1 {
      assert Power(radix, 0) == 1;
    } else if n >= radix {
      Divided(n, radix, Power(radix, k - 1));
      NumeralShort(n / radix, radix, k - 1);
    }
  }

  lemma Divided(n: nat, radix: nat, bound: nat)
    requires radix > 0 && n < radix * bound
    ensures n / radix < bound
  {
    assert n / radix * radix <= n;
    if n / radix >= bound {
      Grows(n / radix, bound, radix);
    }
  }

  lemma Grows(a: nat, b: nat, radix: nat)
    requires a >= b
    ensures a * radix >= radix * b
  {
  }

  type Word = n: int | 0 <= n < 0x1_0000

  type Octet = n: int | 0 <= n < 256

  /** A word as `toString(16)` writes it. */
  function Hex(w: Word): string {
    Numeral(w, 16)
  }

  function Decimal(b: Octet): string {
    Numeral(b, 10)
  }

  predicate IsGroup(s: string) {
    1 <= |s| <= 4 && Digits(s, 16)
  }

  /** What a group reads as. */
  function GroupValue(s: string): (w: Word)
    requires IsGroup(s)
  {
    ValueBound(s, 16);
    PowersOf16();
    PowerGrows(16, |s|, 4);
    Value(s, 16)
  }

  lemma {:induction false} ValueBound(s: string, radix: nat)
    requires Digits(s, radix) && radix > 0
    ensures Value(s, radix) < Power(radix, |s|)
  {
    if s != [] {
      ValueBound(s[..|s| - 1], radix);
      Shifted(Value(s[..|s| - 1], radix), Power(radix, |s| - 1), radix, DigitValue(s[|s| - 1]));
    }
  }

  lemma Shifted(v: nat, bound: nat, radix: nat, d: nat)
    requires v < bound && d < radix
    ensures radix * v + d < radix * bound
  {
    assert radix * (v + 1) <= radix * bound by { Grows(bound, v + 1, radix); }
    assert radix * (v + 1) == radix * v + radix;
  }

  lemma PowersOf16()
    ensures Power(16, 4) == 0x1_0000
  {
    assert Power(16, 1) == 16 * Power(16, 0) == 16;
    assert Power(16, 2) == 16 * Power(16, 1) == 256;
    assert Power(16, 3) == 16 * Power(16, 2) == 4096;
    assert Power(16, 4) == 16 * Power(16, 3);
  }

  lemma PowersOf10()
    ensures Power(10, 3) == 1000
  {
    assert Power(10, 1) == 10 * Power(10, 0) == 10;
    assert Power(10, 2) == 10 * Power(10, 1) == 100;
    assert Power(10, 3) == 10 * Power(10, 2);
  }

  lemma {:induction false} PowerGrows(radix: nat, j: nat, k: nat)
    requires radix > 0 && j <= k
    ensures Power(radix, j) <= Power(radix, k)
    decreases k
  {
    if j < k {
      PowerGrows(radix, j, k - 1);
      Grows(radix, 1, Power(radix, k - 1));
    }
  }

  lemma HexReads(w: Word)
    ensures IsGroup(Hex(w)) && GroupValue(Hex(w)) == w
  {
    NumeralReads(w, 16);
    PowersOf16();
    NumeralShort(w, 16, 4);
  }

  lemma HexLacks(w: Word, c: char)
    requires c == ':' || c == '.'
    ensures Lacks(Hex(w), c)
  {
    NumeralReads(w, 16);
  }

  /** One to three digits, none a leading zero. */
  predicate IsPart(s: string) {
    1 <= |s| <= 3 && Digits(s, 10) && (s[0] == '0' ==> |s| == 1)
  }

  lemma DecimalReads(b: Octet)
    ensures IsPart(Decimal(b)) && Value(Decimal(b), 10) == b
    ensures Lacks(Decimal(b), '.') && Lacks(Decimal(b), ':')
  {
    NumeralReads(b, 10);
    PowersOf10();
    NumeralShort(b, 10, 3);
  }
}
