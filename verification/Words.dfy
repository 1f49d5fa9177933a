/** 32-bit words that count modulo 2^32, read unsigned or signed, and powers of two. */
module Words {
  import opened Arithmetic

  const WORD := 0x1_0000_0000

  /** A count as the word that holds it. */
  function Wrap(count: int): (word: nat)
    ensures word < WORD
  {
    count % WORD
  }

  /** (a - b) >>> 0 of two words. */
  function Difference(a: nat, b: nat): (d: nat)
    ensures d < WORD
  {
    (a - b) % WORD
  }

  /** A word read as a signed 32-bit number, as `| 0` leaves it. */
  function Signed(word: int): (n: int)
    ensures -0x8000_0000 <= n < 0x8000_0000
  {
    var w := word % WORD;
    if w < 0x8000_0000 then w else w - WORD
  }

  lemma WrapUnique(word: int, quotient: int, rest: int)
    requires word == quotient * WORD + rest && 0 <= rest < WORD
    ensures word % WORD == rest
  {
  }

  /** The difference of two wrapped counts is theirs where it fits a word. */
  lemma DifferenceOfWraps(a: nat, b: nat)
    requires b <= a < b + WORD
    ensures Difference(Wrap(a), Wrap(b)) == a - b
  {
    var qa, qb := a / WORD, b / WORD;
    assert a == qa * WORD + Wrap(a) && b == qb * WORD + Wrap(b);
    WrapUnique(Wrap(a) - Wrap(b), qb - qa, a - b);
  }

  lemma WrapAdds(a: nat, b: nat)
    ensures Wrap(Wrap(a) + b) == Wrap(a + b)
  {
    var q := a / WORD;
    assert a + b == q * WORD + (Wrap(a) + b);
    var r := (Wrap(a) + b) / WORD;
    WrapUnique(a + b, q + r, Wrap(Wrap(a) + b));
  }

  /** Two counts less than a word apart wrap to the same word only when they are equal. */
  lemma WrapInjective(a: nat, b: nat)
    requires b <= a < b + WORD
    ensures Wrap(a) == Wrap(b) <==> a == b
  {
    DifferenceOfWraps(a, b);
  }

  predicate PowerOfTwo(n: nat) {
    n == 1 || (n > 1 && n % 2 == 0 && PowerOfTwo(n / 2))
  }

  function Pow2(k: nat): (p: nat)
    ensures p > 0
  {
    if k == 0 then 1 else 2 * Pow2(k - 1)
  }

  /** A power of two divides every larger one. */
  lemma {:induction false} PowerDivides(n: nat, k: nat) returns (factor: nat)
    requires PowerOfTwo(n) && n <= Pow2(k)
    ensures Pow2(k) == n * factor
    decreases n
  {
    if n == 1 {
      factor := Pow2(k);
    } else {
      factor := PowerDivides(n / 2, k - 1);
    }
  }

  lemma WordIsPower()
    ensures Pow2(32) == WORD && Pow2(30) == 0x4000_0000
  {
    assert Pow2(8) == 256;
    PowAdds(8, 8);
    PowAdds(16, 16);
    assert Pow2(30) * 4 == Pow2(32);
  }

  lemma {:induction false} PowAdds(a: nat, b: nat)
    ensures Pow2(a + b) == Pow2(a) * Pow2(b)
  {
    if b > 0 {
      PowAdds(a, b - 1);
      assert Pow2(a) * (2 * Pow2(b - 1)) == 2 * (Pow2(a) * Pow2(b - 1));
    }
  }

  /** A slot found from a word is the slot of the count: the capacity divides 2^32. */
  lemma SlotOfWord(count: nat, k: nat, capacity: nat)
    requires PowerOfTwo(capacity) && capacity <= WORD
    ensures (Wrap(count) + k) % capacity == (count + k) % capacity
  {
    WordIsPower();
    var factor := PowerDivides(capacity, 32);
    var q := count / WORD;
    assert count == q * WORD + Wrap(count);
    Regroup(q, capacity, factor);
    ModShift(Wrap(count) + k, q * factor, capacity);
  }

  lemma Regroup(q: nat, a: nat, b: nat)
    ensures q * (a * b) == (q * b) * a
  {
  }
}
