/** Signed 64-bit division and remainder over the unsigned one,
    common/gcc-millicode/divdi3.c and moddi3.c. */
module Divdi3 {
  import opened Arith
  import opened Words
  import opened Wrappers
  import Qdivrem

  /** What section 6.5.5 of ISO C99 asks of / and %: the quotient is truncated
      toward zero, so the remainder is smaller than the divisor and takes the
      sign of the dividend. */
  ghost predicate Truncated(a: int, b: int, q: int, r: int) {
    && a == q * b + r
    && (if b > 0 then -b < r < b else b < r < -b)
    && (a >= 0 ==> r >= 0) && (a <= 0 ==> r <= 0)
  }

  function Abs(x: int): int {
    if x < 0 then -x else x
  }

  /** Two's complement negation of a negative value's bit pattern gives its
      magnitude, the most negative value included. */
  lemma Magnitude(a: int)
    requires IsS64(a)
    ensures (if a < 0 then U64(-U64(a)) else U64(a)) == Abs(a)
  {
  }

  lemma SignedParts(a: int, b: int, uq: int)
    requires b != 0 && 0 <= Abs(a) - uq * Abs(b) < Abs(b)
    ensures var q := if (a < 0) != (b < 0) then -uq else uq;
            var ur := Abs(a) - uq * Abs(b);
            Truncated(a, b, q, if a < 0 then -ur else ur)
  {
    var ur := Abs(a) - uq * Abs(b);
    Negated(uq, b);
    if a == 0 {
      SmallMultiple(uq, Abs(b), -ur);
    }
    var m, q := uq * Abs(b), if (a < 0) != (b < 0) then -uq else uq;
    assert q * b == if a < 0 then -m else m;
  }

  lemma Negated(x: int, y: int)
    ensures (-x) * y == -(x * y) && x * (-y) == -(x * y)
  {
  }

  /** The requirement determines quotient and remainder. */
  lemma TruncatedIsUnique(a: int, b: int, q: int, r: int, q': int, r': int)
    requires b != 0 && Truncated(a, b, q, r) && Truncated(a, b, q', r')
    ensures q == q' && r == r'
  {
    MulAdd(q, -q', b);
    SmallMultiple(q - q', b, r' - r);
  }

  /** A multiple of b that is smaller than b is zero. */
  lemma SmallMultiple(k: int, b: int, x: int)
    requires k * b == x && b != 0 && -Abs(b) < x < Abs(b)
    ensures k == 0
  {
    Negated(k, b);
    Negated(-k, b);
    assert Abs(k) * Abs(b) == Abs(x);
    if Abs(k) >= 1 {
      MulLe(1, Abs(k), Abs(b));
    }
  }

  /** __divdi3: the truncated quotient, modulo 2^64. */
  method Divdi3(a: int, b: int) returns (res: Option<int>, ghost q: int, ghost r: int)
    requires IsS64(a) && IsS64(b)
    ensures res.None? <==> b == 0
    ensures b != 0 ==> Truncated(a, b, q, r) && res == Some(S64(U64(q)))
  {
    hide Truncated, U64, S64;
    var ua, ub, neg := U64(a), U64(b), false;
    Magnitude(a);
    Magnitude(b);
    if a < 0 {
      ua, neg := U64(-ua), !neg;
    }
    if b < 0 {
      ub, neg := U64(-ub), !neg;
    }
    q, r := 0, 0;
    var d := Qdivrem.Divide(ua, ub, false);
    if d.DivideByZero? {
      return None, 0, 0;
    }
    var uq: int := d.q;
    SignedParts(a, b, uq);
    QuotientPattern(uq, neg);
    q := if neg then -uq else uq;
    r := if a < 0 then -(Abs(a) - uq * Abs(b)) else Abs(a) - uq * Abs(b);
    if neg {
      uq := U64(-uq);
    }
    res := Some(S64(U64(uq)));
  }

  /** Negating the pattern or the number comes to the same. */
  lemma QuotientPattern(uq: int, neg: bool)
    ensures U64(if neg then U64(-uq) else uq) == U64(if neg then -uq else uq)
  {
  }

  /** __moddi3: the remainder, exactly. */
  method Moddi3(a: int, b: int) returns (res: Option<int>, ghost q: int)
    requires IsS64(a) && IsS64(b)
    ensures res.None? <==> b == 0
    ensures b != 0 ==> Truncated(a, b, q, res.value)
  {
    var ua, ub, neg := U64(a), U64(b), false;
    Magnitude(a);
    Magnitude(b);
    if a < 0 {
      ua, neg := U64(-ua), !neg;
    }
    if b < 0 {
      ub := U64(-ub);
    }
    q := 0;
    var d := Qdivrem.Divide(ua, ub, true);
    if d.DivideByZero? {
      return None, 0;
    }
    SignedParts(a, b, d.q);
    q := if (a < 0) != (b < 0) then -(d.q as int) else d.q;
    var ur := d.rem.value;
    RemainderPattern(ur, neg);
    if neg {
      ur := U64(-ur);
    }
    res := Some(S64(ur));
  }

  lemma RemainderPattern(ur: int, neg: bool)
    requires 0 <= ur < 0x8000_0000_0000_0000
    ensures S64(if neg then U64(-ur) else ur) == if neg then -ur else ur
  {
  }

  /** Division undoes multiplication-and-add: every a comes back from its
      quotient and remainder, whatever wrap-around the quotient suffered. */
  lemma QuotientAndRemainderGiveBack(a: int, b: int, q: int, r: int, wrapped: int)
    requires IsS64(a) && IsS64(b) && b != 0 && Truncated(a, b, q, r) && wrapped == S64(U64(q))
    ensures S64(U64(wrapped * b + r)) == a
  {
    var k := q / 0x1_0000_0000_0000_0000 + (if U64(q) < 0x8000_0000_0000_0000 then 0 else 1);
    assert q == wrapped + k * 0x1_0000_0000_0000_0000;
    assert wrapped * b == q * b - (k * b) * 0x1_0000_0000_0000_0000;
    Congruent(a, k * b);
  }

  lemma Congruent(a: int, k: int)
    requires IsS64(a)
    ensures S64(U64(a - k * 0x1_0000_0000_0000_0000)) == a
  {
  }
}
