/** Facts about products and division the solver is given one at a time. */
module Arithmetic {

  lemma SmallMultiple(x: int, out: int)
    requires out > 0
    ensures x * out < out ==> x <= 0
    ensures -out < x * out ==> 0 <= x
  {
    assert x >= 1 ==> x * out >= out;
    assert x <= -1 ==> x * out <= -out;
  }

  /** Quotient and remainder are the only ones. */
  lemma DivideRows(i: nat, rows: nat, out: nat, at: nat)
    requires at < out && i == rows * out + at
    ensures i / out == rows && i % out == at
  {
    var q := i / out;
    assert i == q * out + i % out;
    Distribute(q, rows, out);
    SmallMultiple(q - rows, out);
  }

  lemma Distribute(a: int, b: int, m: int)
    ensures (a - b) * m == a * m - b * m
    ensures (a + b) * m == a * m + b * m
  {
  }

  lemma ModShift(n: nat, q: nat, m: nat)
    requires m > 0
    ensures (n + q * m) % m == n % m
  {
    Distribute(n / m, q, m);
    DivideRows(n + q * m, n / m + q, m, n % m);
  }

  /** Remainders of numbers less than m apart differ. */
  lemma RemaindersDiffer(a: nat, b: nat, m: nat)
    requires a < b < a + m
    ensures a % m != b % m
  {
    var x := b / m - a / m;
    Distribute(b / m, a / m, m);
    assert x * m == b - a - (b % m - a % m);
    SmallMultiple(x, m);
  }
}
