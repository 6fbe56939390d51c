/** Multi-digit numbers in base 2^16, most significant digit first, the way
    qdivrem.c keeps them in its digit arrays. */
module Digits {
  import opened Arith
  import opened Words

  ghost predicate AllDigits(s: seq<int>) {
    forall i :: 0 <= i < |s| ==> IsDigit(s[i])
  }

  /** The number a digit string denotes. */
  ghost function Val(s: seq<int>): int {
    if s == [] then 0 else Val(s[..|s| - 1]) * 0x1_0000 + s[|s| - 1]
  }

  /** Base to the k. */
  ghost function Pow(k: nat): (p: nat)
    ensures p >= 1
  {
    if k == 0 then 1 else 0x1_0000 * Pow(k - 1)
  }

  lemma {:induction false} PowMono(a: nat, b: nat)
    requires a <= b
    ensures Pow(a) <= Pow(b)
  {
    if a < b {
      PowMono(a, b - 1);
    }
  }

  lemma {:induction false} ValBounds(s: seq<int>)
    requires AllDigits(s)
    ensures 0 <= Val(s) < Pow(|s|)
  {
    if s != [] {
      ValBounds(s[..|s| - 1]);
    }
  }

  lemma {:induction false} ValConcat(a: seq<int>, b: seq<int>)
    ensures Val(a + b) == Val(a) * Pow(|b|) + Val(b)
  {
    if b == [] {
      assert a + b == a;
    } else {
      var c, d := b[..|b| - 1], b[|b| - 1];
      assert (a + b)[..|a + b| - 1] == a + c;
      ValConcat(a, c);
      var p := Pow(|c|);
      assert Val(a) * (0x1_0000 * p) == (Val(a) * p) * 0x1_0000;
    }
  }

  /** Peeling the leading digit. */
  lemma ValCons(s: seq<int>)
    requires s != []
    ensures Val(s) == s[0] * Pow(|s| - 1) + Val(s[1..])
  {
    ValConcat([s[0]], s[1..]);
    assert [s[0]] + s[1..] == s;
    assert Val([s[0]]) == s[0];
  }

  /** A number below base^k with k+1 digits has a zero leading digit. */
  lemma LeadingZero(s: seq<int>)
    requires AllDigits(s) && s != [] && Val(s) < Pow(|s| - 1)
    ensures s[0] == 0
  {
    ValCons(s);
    ValBounds(s[1..]);
    var p := Pow(|s| - 1);
    if s[0] >= 1 {
      MulLe(1, s[0], p);
    }
  }

  /** The first nonzero digit bounds the number from below. */
  lemma LeadingNonzero(s: seq<int>)
    requires AllDigits(s) && s != [] && s[0] != 0
    ensures Val(s) >= Pow(|s| - 1)
  {
    ValCons(s);
    ValBounds(s[1..]);
    MulLe(1, s[0], Pow(|s| - 1));
  }

  lemma {:induction false} ValZeros(s: seq<int>)
    requires forall i :: 0 <= i < |s| ==> s[i] == 0
    ensures Val(s) == 0
  {
    if s != [] {
      ValZeros(s[..|s| - 1]);
    }
  }

  lemma {:induction false} PowAdd(a: nat, b: nat)
    ensures Pow(a + b) == Pow(a) * Pow(b)
  {
    if a > 0 {
      PowAdd(a - 1, b);
      assert Pow(a + b) == 0x1_0000 * Pow(a - 1 + b);
      assert (0x1_0000 * Pow(a - 1)) * Pow(b) == 0x1_0000 * (Pow(a - 1) * Pow(b));
    }
  }
}
