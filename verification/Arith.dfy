/** The few facts about multiplication that the digit proofs build on. */
module Arith {

  lemma MulLe(a: int, b: int, c: int)
    requires a <= b && 0 <= c
    ensures a * c <= b * c
  {
  }

  lemma MulAdd(a: int, b: int, c: int)
    ensures (a + b) * c == a * c + b * c
  {
  }

  lemma MulAssoc(a: int, b: int, c: int)
    ensures (a * b) * c == a * (b * c)
  {
  }

  lemma DivNonneg(x: int, p: int)
    requires x >= 0 && p >= 1
    ensures 0 <= x / p
  {
  }

  lemma MultipleMod(k: int, n: int)
    requires n > 0
    ensures (k * n) % n == 0
  {
    var q, r := (k * n) / n, (k * n) % n;
    MulAdd(k, -q, n);
    assert (k - q) * n == r;
    if k - q >= 1 {
      MulLe(1, k - q, n);
    } else if k - q <= -1 {
      MulLe(k - q, -1, n);
    }
  }

  lemma MultipleDiv(k: int, n: int)
    requires n > 0
    ensures k * n / n == k
  {
    MultipleMod(k, n);
    var q := k * n / n;
    MulAdd(k, -q, n);
    if k - q >= 1 {
      MulLe(1, k - q, n);
    } else if k - q <= -1 {
      MulLe(k - q, -1, n);
    }
  }
}
