/** Unsigned 64-bit division by Knuth's Algorithm D, common/gcc-millicode/qdivrem.c.

    The digit arrays are the source's uspace, vspace and qspace; its moving
    pointers u, v and q are kept as offsets into them. */
module Qdivrem {
  import opened Arith
  import opened Words
  import opened Wrappers
  import opened Digits

  /* ------------------------------------------------------------------ */
  /* D1: normalising shift                                                */

  /** A shift count splits a digit in two: p * q == 2^16. */
  lemma SplitDigit(x: int, p: int, q: int)
    requires IsDigit(x) && p > 0 && q > 0 && p * q == 0x1_0000
    ensures x * p == (x % q) * p + (x / q) * 0x1_0000
    ensures 0 <= (x % q) * p <= 0x1_0000 - p
    ensures 0 <= x / q < p
  {
    var h, l := x / q, x % q;
    assert x * p == (h * q) * p + l * p by {
      MulAdd(h * q, l, p);
    }
    MulAssoc(h, q, p);
    MulLe(l, q - 1, p);
    MulAdd(q, -1, p);
    MulLe(0, l, p);
    if h >= p {
      MulLe(p, h, q);
    }
  }

  /** One digit of a left shift: the low part stays, the high part carries out. */
  lemma ShlDigit(x: int, sh: nat)
    requires IsDigit(x) && 0 < sh < 16
    ensures Pow2(sh) * Pow2(16 - sh) == 0x1_0000
    ensures Lhalf(x * Pow2(sh)) == (x % Pow2(16 - sh)) * Pow2(sh) <= 0x1_0000 - Pow2(sh)
    ensures x * Pow2(sh) == Lhalf(x * Pow2(sh)) + (x / Pow2(16 - sh)) * 0x1_0000
    ensures 0 <= x / Pow2(16 - sh) < Pow2(sh)
  {
    Pow2Add(sh, 16 - sh);
    Pow2Of16();
    SplitDigit(x, Pow2(sh), Pow2(16 - sh));
    RemainderOf(x * Pow2(sh), (x % Pow2(16 - sh)) * Pow2(sh), x / Pow2(16 - sh));
  }

  lemma RemainderOf(x: int, r: int, h: int)
    requires x == r + h * 0x1_0000 && 0 <= r < 0x1_0000
    ensures x % 0x1_0000 == r
  {
  }

  /** The digits shifted so far against the digits they came from: `top` fell
      out on the left, `carry` is still to come in from the right. */
  ghost predicate ShlRel(out: seq<int>, src: seq<int>, sh: nat, top: int, carry: int) {
    Val(out) + top * Pow(|out|) == Val(src) * Pow2(sh) + carry
  }

  lemma ShlExtend(out: seq<int>, src: seq<int>, sh: nat, top: int, x: int, next: int)
    requires |out| == |src| && IsDigit(x) && 0 < sh < 16
    requires ShlRel(out, src, sh, top, MovedBits(x, sh))
    ensures ShlRel(out + [KeptBits(x, sh) + next], src + [x], sh, top, next)
  {
    ShlDigit(x, sh);
    var d := KeptBits(x, sh) + next;
    assert (out + [d])[..|out|] == out && (src + [x])[..|src|] == src;
    var vs, p2, pw := Val(src), Pow2(sh), Pow(|out|);
    MulAssoc(top, pw, 0x1_0000);
    MulAdd(vs * 0x1_0000, x, p2);
    MulAssoc(vs, 0x1_0000, p2);
    MulAssoc(vs, p2, 0x1_0000);
  }

  /** The bits of a digit that stay in place and the bits that move up. */
  function KeptBits(x: nat, sh: nat): nat {
    Lhalf(x * Pow2(sh))
  }

  function MovedBits(x: nat, sh: nat): nat
    requires sh <= 16
  {
    DivNonneg(x, Pow2(16 - sh));
    x / Pow2(16 - sh)
  }

  /** The source's digit expression: an or of disjoint bit ranges. */
  lemma ShlOr(x: int, sh: nat, y: int)
    requires IsDigit(x) && IsDigit(y) && 0 < sh < 16
    ensures BitOr(KeptBits(x, sh), MovedBits(y, sh)) == KeptBits(x, sh) + MovedBits(y, sh)
    ensures IsDigit(KeptBits(x, sh) + MovedBits(y, sh)) && IsDigit(KeptBits(x, sh))
  {
    ShlDigit(x, sh);
    ShlDigit(y, sh);
    OrOfDisjointBits(x % Pow2(16 - sh), sh, y / Pow2(16 - sh));
  }

  /** shl: shifts p[0..len] left by sh bits in place; what falls out on the
      left are the moved bits of the leading digit. */
  method Shl(a: array<int>, p: nat, len: nat, sh: nat)
    requires p + len < a.Length && 0 < sh < 16
    requires AllDigits(a[..])
    modifies a
    ensures AllDigits(a[..])
    ensures forall k :: 0 <= k < a.Length && !(p <= k <= p + len) ==> a[k] == old(a[k])
    ensures ShlRel(a[p..p + len + 1], old(a[p..p + len + 1]), sh, MovedBits(old(a[p]), sh), 0)
  {
    hide ShlRel, KeptBits, MovedBits, BitOr;
    ghost var s := a[p..p + len + 1];
    ghost var top := MovedBits(s[0], sh);
    var i := 0;
    ShlStart(s[..0], sh, top);
    assert a[p..p + 0] == s[..0];
    while i < len
      invariant 0 <= i <= len
      invariant AllDigits(a[..])
      invariant forall k :: 0 <= k < a.Length && !(p <= k < p + i) ==> a[k] == old(a[k])
      invariant ShlRel(a[p..p + i], s[..i], sh, top, MovedBits(s[i], sh))
    {
      ghost var hi := a[p..p + i];
      ShlOr(s[i], sh, s[i + 1]);
      ShlExtend(hi, s[..i], sh, top, s[i], MovedBits(s[i + 1], sh));
      a[p + i] := BitOr(KeptBits(a[p + i], sh), MovedBits(a[p + i + 1], sh));
      assert a[p..p + i + 1] == hi + [a[p + i]];
      assert s[..i + 1] == s[..i] + [s[i]];
      i := i + 1;
    }
    ghost var hi := a[p..p + i];
    ShlOr(s[i], sh, s[i]);
    ShlExtend(hi, s[..i], sh, top, s[i], 0);
    a[p + i] := KeptBits(a[p + i], sh);
    assert a[p..p + i + 1] == hi + [a[p + i] + 0];
    assert s == s[..i] + [s[i]];
  }

  lemma ShlStart(s: seq<int>, sh: nat, top: int)
    requires s == []
    ensures ShlRel(s, s, sh, top, top)
  {
  }

  /* ------------------------------------------------------------------ */
  /* D3: quotient digit estimate                                          */

  /** How far an estimate overshoots the leading digits (nn, uj2) over (v1, v2). */
  ghost function Excess(nn: int, uj2: int, v1: int, v2: int, q: int): int {
    q * (v1 * 0x1_0000 + v2) - (nn * 0x1_0000 + uj2)
  }

  /** The estimate is the exact two-digit quotient of the three leading
      remainder digits, capped at the largest digit.  With a normalised divisor
      the correction loop runs at most twice. */
  method EstimateDigit(uj0: int, uj1: int, uj2: int, v1: int, v2: int) returns (qhat: int)
    requires IsDigit(uj0) && IsDigit(uj1) && IsDigit(uj2) && IsDigit(v1) && IsDigit(v2)
    requires 0x8000 <= v1 && uj0 <= v1
    ensures IsDigit(qhat)
    ensures Excess(uj0 * 0x1_0000 + uj1, uj2, v1, v2, qhat) <= 0
    ensures qhat == 0xffff || Excess(uj0 * 0x1_0000 + uj1, uj2, v1, v2, qhat + 1) > 0
  {
    ghost var nn := uj0 * 0x1_0000 + uj1;
    var rhat: int;
    if uj0 == v1 {
      qhat := 0x1_0000;
      rhat := uj1;
      qhat := qhat - 1;
      rhat := rhat + v1;
    } else {
      CombineIsConcatenation(uj0, uj1);
      qhat := Combine(uj0, uj1) / v1;
      rhat := Combine(uj0, uj1) % v1;
      EstimateStart(uj0, uj1, uj2, v1, v2, qhat, rhat);
    }
    ghost var rounds := 0;
    while rhat < 0x1_0000 && U32(v2 * qhat) > Combine(rhat, uj2)
      invariant IsDigit(qhat) && rhat >= 0
      invariant Remains(nn, v1, qhat, rhat)
      invariant qhat == 0xffff || Excess(nn, uj2, v1, v2, qhat + 1) > 0
      invariant 0 <= rounds <= 2 && rhat >= rounds * 0x8000
      decreases 2 - rounds
    {
      EstimateTest(nn, uj2, v1, v2, qhat, rhat);
      RemainsDown(nn, v1, qhat, rhat);
      qhat := qhat - 1;
      rhat := rhat + v1;
      rounds := rounds + 1;
    }
    EstimateTest(nn, uj2, v1, v2, qhat, rhat);
  }

  ghost predicate Remains(nn: int, v1: int, qhat: int, rhat: int) {
    rhat == nn - qhat * v1
  }

  lemma RemainsDown(nn: int, v1: int, qhat: int, rhat: int)
    requires Remains(nn, v1, qhat, rhat)
    ensures Remains(nn, v1, qhat - 1, rhat + v1)
  {
    MulAdd(qhat, -1, v1);
  }

  /** The source's loop test decides whether the estimate overshoots; with
      rhat >= B it never does. */
  lemma EstimateTest(nn: int, uj2: int, v1: int, v2: int, qhat: int, rhat: int)
    requires IsDigit(uj2) && IsDigit(v2) && IsDigit(qhat) && rhat >= 0
    requires Remains(nn, v1, qhat, rhat)
    ensures rhat < 0x1_0000 ==> (U32(v2 * qhat) > Combine(rhat, uj2) <==> Excess(nn, uj2, v1, v2, qhat) > 0)
    ensures rhat >= 0x1_0000 ==> Excess(nn, uj2, v1, v2, qhat) <= 0
    ensures Excess(nn, uj2, v1, v2, qhat) > 0 ==> qhat >= 1
  {
    ProductFits(v2, qhat);
    EstimateExact(nn, uj2, v1, v2, qhat, rhat);
    if rhat < 0x1_0000 {
      CombineIsConcatenation(rhat, uj2);
    }
  }

  lemma ProductRange(a: int, b: int)
    requires IsDigit(a) && IsDigit(b)
    ensures 0 <= a * b <= 0xffff * 0xffff
  {
    MulLe(a, 0xffff, b);
    MulLe(0, a, b);
  }

  lemma ProductFits(a: int, b: int)
    requires IsDigit(a) && IsDigit(b)
    ensures 0 <= a * b <= 0xffff * 0xffff
    ensures U32(a * b) == a * b
  {
    ProductRange(a, b);
    U32Small(a * b);
  }

  lemma U32Small(x: int)
    requires 0 <= x < 0x1_0000_0000
    ensures U32(x) == x
  {
  }

  lemma EstimateStart(uj0: int, uj1: int, uj2: int, v1: int, v2: int, qhat: int, rhat: int)
    requires IsDigit(uj0) && IsDigit(uj1) && IsDigit(uj2) && IsDigit(v1) && IsDigit(v2)
    requires uj0 < v1
    requires qhat == (uj0 * 0x1_0000 + uj1) / v1 && rhat == (uj0 * 0x1_0000 + uj1) % v1
    ensures IsDigit(qhat) && rhat >= 0
    ensures Remains(uj0 * 0x1_0000 + uj1, v1, qhat, rhat)
    ensures Excess(uj0 * 0x1_0000 + uj1, uj2, v1, v2, qhat + 1) > 0
  {
    var nn := uj0 * 0x1_0000 + uj1;
    assert nn == qhat * v1 + rhat;
    if qhat >= 0x1_0000 {
      MulLe(0x1_0000, qhat, v1);
    }
    RemainsDown(nn, v1, qhat + 1, rhat - v1);
    MulAdd(qhat, 1, v1);
    EstimateExact(nn, uj2, v1, v2, qhat + 1, rhat - v1);
    MulLe(0, qhat + 1, v2);
  }

  lemma EstimateExact(nn: int, uj2: int, v1: int, v2: int, qhat: int, rhat: int)
    requires rhat == nn - qhat * v1
    ensures Excess(nn, uj2, v1, v2, qhat) == v2 * qhat - (rhat * 0x1_0000 + uj2)
  {
    MulAdd(v1 * 0x1_0000, v2, qhat);
    MulAssoc(qhat, v1, 0x1_0000);
  }

  /** Knuth's bound: an estimate that is exact for the leading digits is the true
      digit or one more.  ul and vl are the digits the estimate did not look at. */
  lemma EstimateIsNearlyExact(nn: int, uj2: int, ul: int, d1: int, d2: int, vl: int, p: int, qhat: int)
    requires 0 <= ul < p && 0 <= vl < p && IsDigit(qhat) && nn >= 0 && uj2 >= 0 && d1 >= 1 && d2 >= 0
    requires Excess(nn, uj2, d1, d2, qhat) <= 0
    requires qhat == 0xffff || Excess(nn, uj2, d1, d2, qhat + 1) > 0
    requires (nn * 0x1_0000 + uj2) * p + ul < ((d1 * 0x1_0000 + d2) * p + vl) * 0x1_0000
    ensures var u, v := (nn * 0x1_0000 + uj2) * p + ul, (d1 * 0x1_0000 + d2) * p + vl;
            -v < u - qhat * v < v
  {
    EstimateBound(nn * 0x1_0000 + uj2, ul, d1 * 0x1_0000 + d2, vl, p, qhat);
  }

  lemma EstimateBound(u3: int, ul: int, v2: int, vl: int, p: int, qhat: int)
    requires 0 <= ul < p && 0 <= vl < p && 0 <= qhat < 0x1_0000 <= v2
    requires u3 >= 0 && qhat * v2 <= u3
    requires qhat == 0xffff || (qhat + 1) * v2 > u3
    requires u3 * p + ul < (v2 * p + vl) * 0x1_0000
    ensures -(v2 * p + vl) < (u3 * p + ul) - qhat * (v2 * p + vl) < v2 * p + vl
  {
    var qv := qhat * v2;
    assert qhat * (v2 * p + vl) == qv * p + qhat * vl by {
      MulAssoc(qhat, v2, p);
      MulAdd(v2 * p, vl, qhat);
    }
    // lower side: the neglected divisor digits cost less than one divisor
    MulLe(qv, u3, p);
    MulLe(qhat, 0xffff, vl);
    MulLe(0, qhat, vl);
    MulLe(0x1_0000, v2, p);
    // upper side
    if qhat != 0xffff {
      assert (qhat + 1) * v2 == qv + v2;
      MulLe(u3 + 1, qv + v2, p);
      MulAdd(u3, 1, p);
      MulAdd(qv, v2, p);
    }
  }

  /* ------------------------------------------------------------------ */
  /* D4: multiply and subtract                                            */

  /** The word arithmetic of the source splits any difference in range into a
      digit and a borrow of the next position. */
  lemma BorrowOf(x: int)
    requires -0xffff * 0x1_0000 <= x <= 0xffff
    ensures var t' := (0x1_0000 - Hhalf(U32(x))) % 0x1_0000;
            IsDigit(t') && x == Lhalf(U32(x)) - t' * 0x1_0000
  {
    if x < 0 {
      assert U32(x) == x + 0x1_0000_0000;
    }
  }

  /** One digit of the subtraction, as the body of the source's loop. */
  method SubDigit(a: int, b: int, qhat: int, t: int) returns (d: int, t': int)
    requires IsDigit(a) && IsDigit(b) && IsDigit(qhat) && IsDigit(t)
    ensures IsDigit(d) && IsDigit(t')
    ensures SubDigitRel(a, b, qhat, t, d, t')
  {
    ProductRange(b, qhat);
    BorrowOf(a - b * qhat - t);
    t' := U32(a - b * qhat - t);
    d := Lhalf(t');
    t' := (0x1_0000 - Hhalf(t')) % 0x1_0000;
  }

  /** The leading digit: only the borrow is left to subtract, and a nonzero high
      half of the word tells that the whole subtraction went below zero. */
  method SubTop(a: int, t: int) returns (d: int, borrow: bool)
    requires IsDigit(a) && IsDigit(t)
    ensures IsDigit(d) && a - t == d - (if borrow then 1 else 0) * 0x1_0000
  {
    BorrowOf(a - t);
    var w := U32(a - t);
    d := Lhalf(w);
    borrow := Hhalf(w) != 0;
  }

  ghost predicate SubDigitRel(a: int, b: int, qhat: int, t: int, d: int, t': int) {
    a - b * qhat - t == d - t' * 0x1_0000
  }

  /** The low digits subtracted so far: `out` is `src - qhat * v` up to a borrow
      of t units of the next position. */
  ghost predicate SubRel(out: seq<int>, src: seq<int>, v: seq<int>, qhat: int, t: int) {
    Val(out) - t * Pow(|out|) == Val(src) - qhat * Val(v)
  }

  lemma SubExtend(out: seq<int>, src: seq<int>, v: seq<int>, qhat: int, t: int, d: int, a: int, b: int, t': int)
    requires |out| == |src| == |v|
    requires SubRel(out, src, v, qhat, t)
    requires SubDigitRel(a, b, qhat, t, d, t')
    ensures SubRel([d] + out, [a] + src, [b] + v, qhat, t')
  {
    ValOfCons(d, out);
    ValOfCons(a, src);
    ValOfCons(b, v);
    SubAlgebra(Pow(|out|), a, b, qhat, t, d, t', Val(src), Val(v), Val(out));
  }

  lemma SubAlgebra(p: int, a: int, b: int, qhat: int, t: int, d: int, t': int, ru: int, rv: int, rn: int)
    requires rn - t * p == ru - qhat * rv
    requires SubDigitRel(a, b, qhat, t, d, t')
    ensures (d * p + rn) - t' * (0x1_0000 * p) == (a * p + ru) - qhat * (b * p + rv)
  {
    MulAdd(a - b * qhat, -t, p);
    MulAdd(a, -(b * qhat), p);
    MulAdd(d, -(t' * 0x1_0000), p);
    MulAssoc(t', 0x1_0000, p);
    MulAdd(b * p, rv, qhat);
    MulAssoc(qhat, b, p);
  }

  lemma ValOfCons(d: int, s: seq<int>)
    ensures Val([d] + s) == d * Pow(|s|) + Val(s)
  {
    ValCons([d] + s);
    assert ([d] + s)[1..] == s;
  }

  lemma SubStart(out: seq<int>, src: seq<int>, v: seq<int>, qhat: int)
    requires out == [] && src == [] && v == []
    ensures SubRel(out, src, v, qhat, 0)
  {
  }

  /** The leading digit has no divisor digit against it. */
  lemma SubFinish(out: seq<int>, src: seq<int>, v: seq<int>, qhat: int, t: int, d: int, a: int, c: int)
    requires |out| == |src| == |v|
    requires SubRel(out, src, v, qhat, t)
    requires a - t == d - c * 0x1_0000
    ensures SubRel([d] + out, [a] + src, v, qhat, c)
  {
    ValOfCons(d, out);
    ValOfCons(a, src);
    var p := Pow(|out|);
    assert Pow(|out| + 1) == p * 0x1_0000;
    hide Val, Pow;
    LeadingDigits(a, t, d, c, p);
  }

  lemma LeadingDigits(a: int, t: int, d: int, c: int, p: int)
    requires a - t == d - c * 0x1_0000
    ensures a * p - t * p == d * p - c * (p * 0x1_0000)
  {
    MulAdd(a, -t, p);
    MulAdd(d, -(c * 0x1_0000), p);
    MulAssoc(c, 0x1_0000, p);
  }

  /** Subtracts qhat * v[1..n] from u[j..j+n]; the borrow out of the leading
      digit is reported. */
  method MulSub(u: array<int>, j: nat, v: array<int>, vo: nat, n: nat, qhat: int) returns (borrow: bool)
    requires u != v && j + n < u.Length && vo + n < v.Length
    requires AllDigits(u[..]) && AllDigits(v[..]) && IsDigit(qhat)
    modifies u
    ensures AllDigits(u[..])
    ensures forall k :: 0 <= k < u.Length && !(j <= k <= j + n) ==> u[k] == old(u[k])
    ensures SubRel(u[j..j + n + 1], old(u[j..j + n + 1]), v[vo + 1..vo + n + 1], qhat, if borrow then 1 else 0)
  {
    hide SubRel, SubDigitRel, Val, Pow;
    ghost var s, w := u[..], v[..];
    var t, i := 0, n;
    SubStart(u[j + n + 1..j + n + 1], s[j + n + 1..j + n + 1], w[vo + n + 1..vo + n + 1], qhat);
    while i > 0
      invariant 0 <= i <= n && IsDigit(t)
      invariant AllDigits(u[..])
      invariant forall k :: 0 <= k < u.Length && !(i + j < k <= j + n) ==> u[k] == s[k]
      invariant SubRel(u[i + j + 1..j + n + 1], s[i + j + 1..j + n + 1], w[vo + i + 1..vo + n + 1], qhat, t)
    {
      ghost var t0, rn := t, u[i + j + 1..j + n + 1];
      u[i + j], t := SubDigit(u[i + j], v[vo + i], qhat, t);
      SubExtend(rn, s[i + j + 1..j + n + 1], w[vo + i + 1..vo + n + 1], qhat, t0, u[i + j], s[i + j], w[vo + i], t);
      assert u[i + j..j + n + 1] == [u[i + j]] + rn;
      assert s[i + j..j + n + 1] == [s[i + j]] + s[i + j + 1..j + n + 1];
      assert w[vo + i..vo + n + 1] == [w[vo + i]] + w[vo + i + 1..vo + n + 1];
      i := i - 1;
    }
    ghost var t0, rn := t, u[j + 1..j + n + 1];
    u[j], borrow := SubTop(u[j], t);
    SubFinish(rn, s[j + 1..j + n + 1], w[vo + 1..vo + n + 1], qhat, t0, u[j], s[j], if borrow then 1 else 0);
    assert u[j..j + n + 1] == [u[j]] + rn;
    assert s[j..j + n + 1] == [s[j]] + s[j + 1..j + n + 1];
  }

  /* ------------------------------------------------------------------ */
  /* D6: add back                                                         */

  /** Adds v[1..n] to u[j..j+n]; the carry out of the leading digit is dropped. */
  method AddBack(u: array<int>, j: nat, v: array<int>, vo: nat, n: nat) returns (ghost carry: int)
    requires u != v && j + n < u.Length && vo + n < v.Length
    requires AllDigits(u[..]) && AllDigits(v[..])
    modifies u
    ensures AllDigits(u[..]) && carry >= 0
    ensures forall k :: 0 <= k < u.Length && !(j <= k <= j + n) ==> u[k] == old(u[k])
    ensures SubRel(u[j..j + n + 1], old(u[j..j + n + 1]), v[vo + 1..vo + n + 1], -1, -carry)
  {
    hide SubRel, Val, Pow;
    ghost var s, w := u[..], v[..];
    var t, i := 0, n;
    SubStart(u[j + n + 1..j + n + 1], s[j + n + 1..j + n + 1], w[vo + n + 1..vo + n + 1], -1);
    while i > 0
      invariant 0 <= i <= n && 0 <= t <= 1
      invariant AllDigits(u[..])
      invariant forall k :: 0 <= k < u.Length && !(i + j < k <= j + n) ==> u[k] == s[k]
      invariant SubRel(u[i + j + 1..j + n + 1], s[i + j + 1..j + n + 1], w[vo + i + 1..vo + n + 1], -1, -t)
    {
      ghost var t0, rn := t, u[i + j + 1..j + n + 1];
      t := U32(t + u[i + j] + v[vo + i]);
      u[i + j] := Lhalf(t);
      t := Hhalf(t);
      SubExtend(rn, s[i + j + 1..j + n + 1], w[vo + i + 1..vo + n + 1], -1, -t0, u[i + j], s[i + j], w[vo + i], -t);
      assert u[i + j..j + n + 1] == [u[i + j]] + rn;
      assert s[i + j..j + n + 1] == [s[i + j]] + s[i + j + 1..j + n + 1];
      assert w[vo + i..vo + n + 1] == [w[vo + i]] + w[vo + i + 1..vo + n + 1];
      i := i - 1;
    }
    ghost var t0, rn := t, u[j + 1..j + n + 1];
    carry := Hhalf(u[j] + t);
    u[j] := Lhalf(u[j] + t);
    SubFinish(rn, s[j + 1..j + n + 1], w[vo + 1..vo + n + 1], -1, -t0, u[j], s[j], -carry);
    assert u[j..j + n + 1] == [u[j]] + rn;
    assert s[j..j + n + 1] == [s[j]] + s[j + 1..j + n + 1];
  }

  /* ------------------------------------------------------------------ */
  /* D3-D6 together                                                       */

  /** Splitting off the digits the estimate looks at. */
  lemma LeadingThree(s: seq<int>)
    requires |s| >= 3 && AllDigits(s)
    ensures Val(s) == ((s[0] * 0x1_0000 + s[1]) * 0x1_0000 + s[2]) * Pow(|s| - 3) + Val(s[3..])
    ensures 0 <= Val(s[3..]) < Pow(|s| - 3)
  {
    hide Val, Pow;
    ValConcat(s[..3], s[3..]);
    assert s[..3] + s[3..] == s && s[..3] == [s[0], s[1], s[2]];
    ValThree(s[0], s[1], s[2]);
    ValBounds(s[3..]);
  }

  lemma LeadingTwo(s: seq<int>)
    requires |s| >= 2 && AllDigits(s)
    ensures Val(s) == (s[0] * 0x1_0000 + s[1]) * Pow(|s| - 2) + Val(s[2..])
    ensures 0 <= Val(s[2..]) < Pow(|s| - 2)
  {
    hide Val, Pow;
    ValConcat(s[..2], s[2..]);
    assert s[..2] + s[2..] == s && s[..2] == [s[0], s[1]];
    ValTwo(s[0], s[1]);
    ValBounds(s[2..]);
  }

  lemma ValTwo(a: int, b: int)
    ensures Val([a, b]) == a * 0x1_0000 + b
  {
    assert [a, b][..1] == [a] && Val([a]) == a;
  }

  lemma ValThree(a: int, b: int, c: int)
    ensures Val([a, b, c]) == (a * 0x1_0000 + b) * 0x1_0000 + c
  {
    ValTwo(a, b);
    assert [a, b, c][..2] == [a, b];
  }

  /** The leading remainder digit never exceeds the leading divisor digit. */
  lemma LeadingDigitsOrdered(su: seq<int>, sv: seq<int>)
    requires AllDigits(su) && AllDigits(sv) && |su| == |sv| + 1 && |sv| >= 1
    requires Val(su) < Val(sv) * 0x1_0000
    ensures su[0] <= sv[0]
  {
    ValCons(su);
    ValCons(sv);
    ValBounds(su[1..]);
    ValBounds(sv[1..]);
    assert Pow(|sv|) == 0x1_0000 * Pow(|sv| - 1);
    LeadersOrdered(su[0], Val(su[1..]), sv[0], Val(sv[1..]), Pow(|sv| - 1));
  }

  lemma LeadersOrdered(a: int, ru: int, b: int, rv: int, p: int)
    requires 0 <= ru && 0 <= rv < p
    requires a * (0x1_0000 * p) + ru < (b * p + rv) * 0x1_0000
    ensures a <= b
  {
    if a >= b + 1 {
      MulLe(b + 1, a, 0x1_0000 * p);
      MulAdd(b, 1, 0x1_0000 * p);
      MulAssoc(b, p, 0x1_0000);
    }
  }

  /** What one pass through D3 to D6 must achieve: digit and remainder. */
  ghost predicate DigitOf(u: int, v: int, q: int, r: int) {
    u == q * v + r && 0 <= r < v
  }

  /** One round of Algorithm D: divides u[j..j+n] by v[1..n] in place, leaving
      the remainder there and returning the quotient digit. */
  method DivideDigit(u: array<int>, j: nat, v: array<int>, vo: nat, n: nat) returns (qhat: int)
    requires u != v && 2 <= n && j + n < u.Length && vo + n < v.Length
    requires AllDigits(u[..]) && AllDigits(v[..])
    requires 0x8000 <= v[vo + 1]
    requires Val(u[j..j + n + 1]) < Val(v[vo + 1..vo + n + 1]) * 0x1_0000
    modifies u
    ensures AllDigits(u[..]) && IsDigit(qhat) && u[j] == 0
    ensures forall k :: 0 <= k < u.Length && !(j <= k <= j + n) ==> u[k] == old(u[k])
    ensures DigitOf(Val(old(u[j..j + n + 1])), Val(v[vo + 1..vo + n + 1]), qhat, Val(u[j..j + n + 1]))
  {
    hide Val, Pow, SubRel, Excess, DigitOf;
    ghost var su, sv := u[j..j + n + 1], v[vo + 1..vo + n + 1];
    LeadingDigitsOrdered(su, sv);
    qhat := EstimateDigit(u[j], u[j + 1], u[j + 2], v[vo + 1], v[vo + 2]);
    EstimateOfDigits(su, sv, qhat);
    var borrow := MulSub(u, j, v, vo, n, qhat);
    ghost var mid := u[j..j + n + 1];
    if borrow {
      qhat := qhat - 1;
      ghost var carry := AddBack(u, j, v, vo, n);
      BorrowMeansOneTooMany(su, sv, mid, u[j..j + n + 1], qhat + 1, carry);
    } else {
      NoBorrowMeansExact(su, sv, mid, qhat);
    }
    RemainderLeadingZero(su, sv, u[j..j + n + 1], qhat);
  }

  /** The estimate for whole numbers: within one divisor on either side. */
  ghost predicate NearlyExact(su: seq<int>, sv: seq<int>, qhat: int) {
    -Val(sv) < Val(su) - qhat * Val(sv) < Val(sv)
  }

  lemma EstimateOfDigits(su: seq<int>, sv: seq<int>, qhat: int)
    requires AllDigits(su) && AllDigits(sv) && |su| == |sv| + 1 && |sv| >= 2
    requires 0x8000 <= sv[0] && IsDigit(qhat)
    requires Excess(su[0] * 0x1_0000 + su[1], su[2], sv[0], sv[1], qhat) <= 0
    requires qhat == 0xffff || Excess(su[0] * 0x1_0000 + su[1], su[2], sv[0], sv[1], qhat + 1) > 0
    requires Val(su) < Val(sv) * 0x1_0000
    ensures NearlyExact(su, sv, qhat)
  {
    hide Val, Pow, Excess;
    LeadingThree(su);
    LeadingTwo(sv);
    EstimateIsNearlyExact(su[0] * 0x1_0000 + su[1], su[2], Val(su[3..]),
                          sv[0], sv[1], Val(sv[2..]), Pow(|sv| - 2), qhat);
  }

  /** Without a borrow the estimate was the true digit. */
  lemma NoBorrowMeansExact(su: seq<int>, sv: seq<int>, mid: seq<int>, qhat: int)
    requires AllDigits(mid) && NearlyExact(su, sv, qhat) && SubRel(mid, su, sv, qhat, 0)
    ensures DigitOf(Val(su), Val(sv), qhat, Val(mid))
  {
    ValBounds(mid);
  }

  /** With a borrow it was one too many, and a single add-back repairs it. */
  lemma BorrowMeansOneTooMany(su: seq<int>, sv: seq<int>, mid: seq<int>, fin: seq<int>, qhat: int, carry: int)
    requires AllDigits(su) && AllDigits(sv) && AllDigits(mid) && AllDigits(fin)
    requires |su| == |mid| == |fin| == |sv| + 1 && qhat >= 0 && carry >= 0
    requires NearlyExact(su, sv, qhat)
    requires SubRel(mid, su, sv, qhat, 1) && SubRel(fin, mid, sv, -1, -carry)
    ensures qhat >= 1
    ensures DigitOf(Val(su), Val(sv), qhat - 1, Val(fin))
  {
    ValBounds(su);
    ValBounds(sv);
    ValBounds(mid);
    ValBounds(fin);
    var p := Pow(|su|);
    CarryIsOne(carry, p, Val(fin), Val(mid) + Val(sv));
    MulAdd(qhat, -1, Val(sv));
  }

  lemma RemainderLeadingZero(su: seq<int>, sv: seq<int>, r: seq<int>, q: int)
    requires AllDigits(r) && AllDigits(sv) && |r| == |sv| + 1
    requires DigitOf(Val(su), Val(sv), q, Val(r))
    ensures r[0] == 0
  {
    ValBounds(sv);
    LeadingZero(r);
  }

  lemma CarryIsOne(carry: int, p: int, r: int, total: int)
    requires r + carry * p == total && 0 <= r < p <= total < 2 * p && carry >= 0
    ensures carry == 1
  {
    if carry >= 2 {
      MulLe(2, carry, p);
    }
  }

  /* ------------------------------------------------------------------ */
  /* D7: loop over the quotient digits                                    */

  /** The leading dividend digits `s` divided so far: quotient digits `qs`,
      remainder digits `us`. */
  ghost predicate QuotRel(s: seq<int>, qs: seq<int>, v: int, us: seq<int>) {
    DigitOf(Val(s), v, Val(qs), Val(us))
  }

  lemma QuotExtend(s: seq<int>, qs: seq<int>, v: int, us: seq<int>, x: int, q: int, r: seq<int>)
    requires QuotRel(s, qs, v, us)
    requires DigitOf(Val(us + [x]), v, q, Val(r))
    ensures QuotRel(s + [x], qs + [q], v, r)
  {
    assert (s + [x])[..|s|] == s && (qs + [q])[..|qs|] == qs && (us + [x])[..|us|] == us;
    MulAdd(Val(qs) * 0x1_0000, q, v);
    MulAssoc(Val(qs), 0x1_0000, v);
    MulAssoc(Val(qs), v, 0x1_0000);
  }

  lemma ValDropZeros(z: seq<int>, s: seq<int>)
    requires forall i :: 0 <= i < |z| ==> z[i] == 0
    ensures Val(z + s) == Val(s)
  {
    ValZeros(z);
    ValConcat(z, s);
  }

  /** One pass of the loop, phrased for the whole prefix of u. */
  lemma DigitOfPrefix(z: seq<int>, us: seq<int>, x: int, v: int, q: int, r: seq<int>)
    requires forall i :: 0 <= i < |z| ==> z[i] == 0
    requires DigitOf(Val(us + [x]), v, q, Val(r))
    ensures DigitOf(Val((z + us) + [x]), v, q, Val(z + r))
  {
    ValDropZeros(z, us + [x]);
    ValDropZeros(z, r);
    assert (z + us) + [x] == z + (us + [x]);
  }

  lemma RoundReady(z: seq<int>, us: seq<int>, x: int, v: int)
    requires forall i :: 0 <= i < |z| ==> z[i] == 0
    requires IsDigit(x) && Val(z + us) < v
    ensures Val(us + [x]) < v * 0x1_0000
  {
    ValDropZeros(z, us);
    assert (us + [x])[..|us|] == us;
  }

  /** The state of u and q after j rounds. */
  ghost predicate Rounds(s: seq<int>, u: seq<int>, uo: nat, n: nat, v: int, q: seq<int>, qo: nat, j: nat)
    requires uo + j + n <= |s| == |u| && qo + j <= |q|
  {
    && AllDigits(u) && AllDigits(q)
    && u[uo + j + n..] == s[uo + j + n..]
    && (forall k :: uo <= k < uo + j ==> u[k] == 0)
    && QuotRel(s[uo..uo + j + n], q[qo..qo + j], v, u[uo..uo + j + n])
  }

  /** One round, seen on the whole digit strings. */
  lemma RoundExtend(s: seq<int>, u: seq<int>, u': seq<int>, uo: nat, n: nat, v: int, q: seq<int>, q': seq<int>, qo: nat, j: nat, qhat: int)
    requires uo + j + n < |s| == |u| == |u'| && qo + j < |q| == |q'|
    requires Rounds(s, u, uo, n, v, q, qo, j)
    requires AllDigits(u') && IsDigit(qhat) && q' == q[qo + j := qhat]
    requires u'[..uo + j] == u[..uo + j] && u'[uo + j + n + 1..] == u[uo + j + n + 1..] && u'[uo + j] == 0
    requires DigitOf(Val(u[uo + j..uo + j + n + 1]), v, qhat, Val(u'[uo + j..uo + j + n + 1]))
    ensures Rounds(s, u', uo, n, v, q', qo, j + 1)
  {
    hide Val, DigitOf, QuotRel;
    var z, us, x := u[uo..uo + j], u[uo + j..uo + j + n], u[uo + j + n];
    var r := u'[uo + j..uo + j + n + 1];
    assert u[uo..uo + j + n] == z + us && u[uo + j..uo + j + n + 1] == us + [x];
    DigitOfPrefix(z, us, x, v, qhat, r);
    QuotExtend(s[uo..uo + j + n], q[qo..qo + j], v, z + us, x, qhat, z + r);
    assert x == s[uo + j + n..][0];
    assert u'[uo..uo + j + n + 1] == z + r by {
      assert u'[uo..uo + j] == u'[..uo + j][uo..] == z;
    }
    assert s[uo..uo + j + n + 1] == s[uo..uo + j + n] + [x];
    assert q'[qo..qo + j + 1] == q[qo..qo + j] + [qhat];
    assert forall k :: uo <= k < uo + j ==> u'[k] == u'[..uo + j][k] == u[k];
    assert u'[uo + j + n + 1..] == u[uo + j + n..][1..] == s[uo + j + n..][1..] == s[uo + j + n + 1..];
  }

  /** The remainder kept so far is small enough for the next digit. */
  lemma RoundFits(s: seq<int>, u: seq<int>, uo: nat, n: nat, v: int, q: seq<int>, qo: nat, j: nat)
    requires uo + j + n < |s| == |u| && qo + j <= |q|
    requires Rounds(s, u, uo, n, v, q, qo, j)
    ensures Val(u[uo + j..uo + j + n + 1]) < v * 0x1_0000
  {
    hide Val;
    var z, us, x := u[uo..uo + j], u[uo + j..uo + j + n], u[uo + j + n];
    assert u[uo..uo + j + n] == z + us && u[uo + j..uo + j + n + 1] == us + [x];
    RoundReady(z, us, x, v);
  }

  /** D2 to D7: divides u[0..m+n] by v[1..n], digit by digit. */
  method DivideAll(u: array<int>, uo: nat, m: nat, v: array<int>, vo: nat, n: nat, q: array<int>, qo: nat)
    requires u != v && u != q && v != q
    requires 2 <= n && uo + m + n < u.Length && vo + n < v.Length && qo + m < q.Length
    requires AllDigits(u[..]) && AllDigits(v[..]) && AllDigits(q[..])
    requires 0x8000 <= v[vo + 1]
    requires Val(u[uo..uo + n]) < Val(v[vo + 1..vo + n + 1])
    modifies u, q
    ensures u[..uo] == old(u[..uo]) && q[..qo] == old(q[..qo])
    ensures Rounds(old(u[..]), u[..], uo, n, Val(v[vo + 1..vo + n + 1]), q[..], qo, m + 1)
  {
    hide Val, Pow, DigitOf, QuotRel, Rounds;
    ghost var s, w := u[..], Val(v[vo + 1..vo + n + 1]);
    var j := 0;
    RoundsStart(s, uo, n, w, q[..], qo);
    while j <= m
      invariant 0 <= j <= m + 1
      invariant u[..uo] == s[..uo] && q[..qo] == old(q[..qo])
      invariant Rounds(s, u[..], uo, n, w, q[..], qo, j)
    {
      RoundsDigits(s, u[..], uo, n, w, q[..], qo, j);
      RoundFits(s, u[..], uo, n, w, q[..], qo, j);
      ghost var u0, q0 := u[..], q[..];
      assert u0[uo + j..uo + j + n + 1] == u[uo + j..uo + j + n + 1];
      var qhat := DivideDigit(u, uo + j, v, vo, n);
      q[qo + j] := qhat;
      assert u[..][uo + j..uo + j + n + 1] == u[uo + j..uo + j + n + 1];
      RoundExtend(s, u0, u[..], uo, n, w, q0, q[..], qo, j, qhat);
      j := j + 1;
    }
  }

  lemma RoundsStart(s: seq<int>, uo: nat, n: nat, v: int, q: seq<int>, qo: nat)
    requires uo + n <= |s| && qo <= |q| && AllDigits(s) && AllDigits(q) && Val(s[uo..uo + n]) < v
    ensures Rounds(s, s, uo, n, v, q, qo, 0)
  {
    QuotStart(s[uo..uo + n], q[qo..qo], v);
  }

  lemma RoundsDigits(s: seq<int>, u: seq<int>, uo: nat, n: nat, v: int, q: seq<int>, qo: nat, j: nat)
    requires uo + j + n <= |s| == |u| && qo + j <= |q|
    requires Rounds(s, u, uo, n, v, q, qo, j)
    ensures AllDigits(u) && AllDigits(q)
  {
  }

  lemma QuotStart(us: seq<int>, qs: seq<int>, v: int)
    requires AllDigits(us) && Val(us) < v && qs == []
    ensures QuotRel(us, qs, v, us)
  {
    ValBounds(us);
  }

  /* ------------------------------------------------------------------ */
  /* Remainder: shift back                                                */

  /** The low remainder digits shifted right so far; `kept` are the bits the
      digit to the left will send down. */
  ghost predicate ShrRel(out: seq<int>, src: seq<int>, sh: nat, last: int, kept: int) {
    Val(out) * 0x1_0000 + last == Val(src) * Pow2(sh) + kept * Pow(|out|)
  }

  lemma ShrExtend(out: seq<int>, src: seq<int>, sh: nat, last: int, x: int, y: int)
    requires |out| == |src| && IsDigit(x) && IsDigit(y) && 0 < sh < 16
    requires ShrRel(out, src, sh, last, KeptBits(x, sh))
    ensures ShrRel([MovedBits(x, sh) + KeptBits(y, sh)] + out, [x] + src, sh, last, KeptBits(y, sh))
  {
    ShlDigit(x, sh);
    var mv, ky, kx, p, q := MovedBits(x, sh), KeptBits(y, sh), KeptBits(x, sh), Pow(|out|), Pow2(sh);
    ValOfCons(mv + ky, out);
    ValOfCons(x, src);
    ShrAlgebra(mv, ky, kx, x, p, q, Val(out), Val(src), last);
  }

  lemma ShrAlgebra(mv: int, ky: int, kx: int, x: int, p: int, q: int, o: int, s: int, last: int)
    requires x * q == kx + mv * 0x1_0000
    requires o * 0x1_0000 + last == s * q + kx * p
    ensures ((mv + ky) * p + o) * 0x1_0000 + last == (x * p + s) * q + ky * (0x1_0000 * p)
  {
    MulAdd(mv, ky, p);
    MulAssoc(ky, p, 0x1_0000);
    MulAdd(x * p, s, q);
    assert (x * p) * q == (x * q) * p by {
      MulAssoc(x, p, q);
      MulAssoc(x, q, p);
    }
    MulAdd(kx, mv * 0x1_0000, p);
    MulAssoc(mv, 0x1_0000, p);
  }

  lemma ShrStart(out: seq<int>, src: seq<int>, sh: nat, last: int)
    requires out == [] && src == []
    ensures ShrRel(out, src, sh, last, last)
  {
  }

  lemma ShrOr(x: int, sh: nat, y: int)
    requires IsDigit(x) && IsDigit(y) && 0 < sh < 16
    ensures BitOr(MovedBits(x, sh), KeptBits(y, sh)) == MovedBits(x, sh) + KeptBits(y, sh)
    ensures IsDigit(MovedBits(x, sh) + KeptBits(y, sh))
  {
    ShlOr(y, sh, x);
    OrComm(MovedBits(x, sh), KeptBits(y, sh));
  }

  /** A remainder that is a multiple of 2^d shifts back without loss. */
  lemma ShrExact(out: seq<int>, src: seq<int>, d: nat, last: int, r: int)
    requires 0 < d < 16 && ShrRel(out, src, 16 - d, last, 0) && Val(src) == r * Pow2(d)
    requires 0 <= last < 0x1_0000
    ensures Val(out) == r
  {
    assert Pow2(d) * Pow2(16 - d) == 0x1_0000 by {
      Pow2Add(d, 16 - d);
      Pow2Of16();
    }
    ShrExactValue(Val(out), r, Pow2(d), Pow2(16 - d), last);
  }

  lemma ShrExactValue(o: int, r: int, p: int, q: int, last: int)
    requires p * q == 0x1_0000 && o * 0x1_0000 + last == (r * p) * q && 0 <= last < 0x1_0000
    ensures o == r
  {
    MulAssoc(r, p, q);
  }

  lemma SliceHead(s: seq<int>, i: nat, hi: nat)
    requires i < hi <= |s|
    ensures s[i..hi] == [s[i]] + s[i + 1..hi]
  {
  }

  /** The source's unshift loop: u[lo+1..lo+n] >>= d, u[lo] = 0. */
  method Unshift(u: array<int>, lo: nat, n: nat, d: nat, ghost r: int)
    requires 0 < n && lo + n < u.Length && 0 < d < 16
    requires AllDigits(u[..]) && u[lo] == 0
    requires Val(u[lo + 1..lo + n + 1]) == r * Pow2(d)
    modifies u
    ensures AllDigits(u[..]) && u[lo] == 0
    ensures forall k :: 0 <= k < u.Length && !(lo <= k <= lo + n) ==> u[k] == old(u[k])
    ensures Val(u[lo + 1..lo + n + 1]) == r
  {
    hide Val, Pow, ShrRel, KeptBits, MovedBits, BitOr, Pow2;
    ghost var s := u[..];
    ghost var last := KeptBits(s[lo + n], 16 - d);
    var i := lo + n;
    ShrStart(u[i + 1..lo + n + 1], s[i + 1..lo + n + 1], 16 - d, last);
    while i > lo
      invariant lo <= i <= lo + n
      invariant AllDigits(u[..])
      invariant forall k :: 0 <= k < u.Length && !(i < k <= lo + n) ==> u[k] == s[k]
      invariant ShrRel(u[i + 1..lo + n + 1], s[i + 1..lo + n + 1], 16 - d, last, KeptBits(s[i], 16 - d))
    {
      ghost var out := u[i + 1..lo + n + 1];
      ShrOr(s[i], 16 - d, s[i - 1]);
      ShrExtend(out, s[i + 1..lo + n + 1], 16 - d, last, s[i], s[i - 1]);
      u[i] := BitOr(MovedBits(u[i], 16 - d), KeptBits(u[i - 1], 16 - d));
      assert u[i + 1..lo + n + 1] == out;
      SliceHead(u[..], i, lo + n + 1);
      SliceHead(s, i, lo + n + 1);
      i := i - 1;
    }
    u[i] := 0;
    KeptOfZero(16 - d);
    ShlOr(s[lo + n], 16 - d, 0);
    ShrExact(u[lo + 1..lo + n + 1], s[lo + 1..lo + n + 1], d, last, r);
  }

  lemma KeptOfZero(sh: nat)
    ensures KeptBits(0, sh) == 0
  {
  }

  /* ------------------------------------------------------------------ */
  /* D1: choosing the shift                                               */

  lemma Pow2Below(d: nat)
    requires Pow2(d) < 0x8000
    ensures d < 15
  {
    if d >= 15 {
      Pow2Of16();
      Pow2Mono(15, d);
    }
  }

  /** The shift that brings the leading divisor digit to at least B/2. */
  method NormalisingShift(v1: int) returns (d: nat)
    requires IsDigit(v1) && v1 != 0
    ensures d < 16 && 0x8000 <= v1 * Pow2(d) < 0x1_0000
  {
    d := 0;
    var t := v1;
    while t < 0x8000
      invariant d < 16 && 0 < t < 0x1_0000
      invariant t == v1 * Pow2(d) && Pow2(d) <= t
      decreases 0x8000 - t
    {
      Pow2Below(d);
      assert Pow2(d + 1) == 2 * Pow2(d);
      MulAssoc(v1, Pow2(d), 2);
      t := t * 2;
      d := d + 1;
    }
  }

  /** A digit that does not overflow its place loses nothing on the left. */
  lemma NothingMoves(x: int, d: nat)
    requires IsDigit(x) && 0 < d < 16 && x * Pow2(d) < 0x1_0000
    ensures MovedBits(x, d) == 0
  {
    ShlDigit(x, d);
    MulLe(0, x, Pow2(d));
  }

  lemma ShlNoOverflow(out: seq<int>, src: seq<int>, d: nat)
    requires ShlRel(out, src, d, 0, 0)
    ensures Val(out) == Val(src) * Pow2(d)
  {
  }

  /** The scaled divisor starts with a digit of at least B/2. */
  lemma NormalisedLeader(s: seq<int>, s': seq<int>, p: int)
    requires AllDigits(s) && AllDigits(s') && |s| == |s'| && s != []
    requires Val(s') == Val(s) * p && 0x8000 <= s[0] * p && p >= 1
    ensures 0x8000 <= s'[0]
  {
    ValCons(s);
    ValCons(s');
    ValBounds(s[1..]);
    ValBounds(s'[1..]);
    var k := Pow(|s| - 1);
    MulLe(s[0] * k, Val(s), p);
    MulAssoc(s[0], k, p);
    MulAssoc(s[0], p, k);
    MulLe(0x8000, s[0] * p, k);
    if s'[0] <= 0x7fff {
      MulLe(s'[0], 0x7fff, k);
    }
  }

  /** The scaled dividend's leading n digits stay below the scaled divisor. */
  lemma LeadersBelow(a: seq<int>, b: seq<int>, u: int, v: int, p: int, n: nat)
    requires AllDigits(b) && n >= 1 && |b| >= 1 && p >= 1
    requires Val(a + b) == u * p && 0 <= u < Pow(|b| + n - 1) && v >= Pow(n - 1)
    ensures Val(a) < v * p
  {
    ValConcat(a, b);
    ValBounds(b);
    PowAdd(|b|, n - 1);
    var t, k, w := Val(a), Pow(|b|), Pow(n - 1);
    MulLe(w, v, p);
    if t >= w * p {
      MulLe(w * p, t, k);
      MulLe(u + 1, k * w, p);
      MulAdd(u, 1, p);
      assert (w * p) * k == (k * w) * p by {
        MulAssoc(w, p, k);
        MulAssoc(k, w, p);
        MulAssoc(w, k, p);
      }
    }
  }

  /** D1: scales dividend and divisor by the same power of two. */
  method Normalise(u: array<int>, uo: nat, m: nat, v: array<int>, vo: nat, n: nat) returns (d: nat)
    requires u != v && 2 <= n && uo + m + n < u.Length && vo + n < v.Length
    requires AllDigits(u[..]) && AllDigits(v[..])
    requires u[uo] == 0 && v[vo + 1] != 0
    modifies u, v
    ensures AllDigits(u[..]) && AllDigits(v[..]) && d < 16
    ensures u[..uo] == old(u[..uo])
    ensures 0x8000 <= v[vo + 1]
    ensures Val(u[uo..uo + m + n + 1]) == Val(old(u[uo..uo + m + n + 1])) * Pow2(d)
    ensures Val(v[vo + 1..vo + n + 1]) == Val(old(v[vo + 1..vo + n + 1])) * Pow2(d)
    ensures Val(u[uo..uo + n]) < Val(v[vo + 1..vo + n + 1])
  {
    hide Val, Pow, ShlRel, MovedBits, KeptBits;
    ghost var su, sv := u[uo..uo + m + n + 1], v[vo + 1..vo + n + 1];
    d := NormalisingShift(v[vo + 1]);
    if d > 0 {
      NothingMoves(u[uo], d);
      NothingMoves(v[vo + 1], d);
      Shl(u, uo, m + n, d);
      Shl(v, vo + 1, n - 1, d);
      ShlNoOverflow(u[uo..uo + m + n + 1], su, d);
      ShlNoOverflow(v[vo + 1..vo + n + 1], sv, d);
    }
    NormalisedLeader(sv, v[vo + 1..vo + n + 1], Pow2(d));
    LeadingNonzero(sv);
    BelowPower(su);
    ghost var a, b := u[uo..uo + n], u[uo + n..uo + m + n + 1];
    assert u[uo..uo + m + n + 1] == a + b;
    assert b == u[..][uo + n..uo + m + n + 1];
    DigitsSlice(u[..], uo + n, uo + m + n + 1);
    LeadersBelow(a, b, Val(su), Val(sv), Pow2(d), n);
  }

  lemma DigitsSlice(s: seq<int>, lo: nat, hi: nat)
    requires AllDigits(s) && lo <= hi <= |s|
    ensures AllDigits(s[lo..hi])
  {
  }

  lemma BelowPower(s: seq<int>)
    requires AllDigits(s) && s != [] && s[0] == 0
    ensures 0 <= Val(s) < Pow(|s| - 1)
  {
    ValCons(s);
    ValBounds(s[1..]);
  }

  /* ------------------------------------------------------------------ */
  /* The whole division                                                   */

  /** Unscaling: the quotient is unchanged, the remainder was scaled. */
  lemma Unscale(u: int, v: int, p: int, q: int, r: int)
    requires p >= 1 && DigitOf(u * p, v * p, q, r)
    ensures r == (u - q * v) * p
    ensures DigitOf(u, v, q, u - q * v)
  {
    var x := u - q * v;
    MulAssoc(q, v, p);
    MulAdd(u, -(q * v), p);
    assert r == x * p;
    ScaledBelow(x, v, p);
  }

  lemma ScaledBelow(x: int, v: int, p: int)
    requires p >= 1 && 0 <= x * p < v * p
    ensures 0 <= x < v
  {
    if x <= -1 {
      MulLe(x, -1, p);
    }
    if x >= v {
      MulLe(v, x, p);
    }
  }

  lemma ValFour(a: int, b: int, c: int, d: int)
    ensures Val([a, b, c, d]) == ((a * 0x1_0000 + b) * 0x1_0000 + c) * 0x1_0000 + d
  {
    ValThree(a, b, c);
    assert [a, b, c, d][..3] == [a, b, c];
  }

  /** Breaking a 64-bit value into digits. */
  lemma DigitsOfQuad(x: int)
    requires 0 <= x < 0x1_0000_0000_0000_0000
    ensures var h, l := x / 0x1_0000_0000, x % 0x1_0000_0000;
            && IsDigit(Hhalf(h)) && IsDigit(Lhalf(h)) && IsDigit(Hhalf(l)) && IsDigit(Lhalf(l))
            && Val([Hhalf(h), Lhalf(h), Hhalf(l), Lhalf(l)]) == x
  {
    var h, l := x / 0x1_0000_0000, x % 0x1_0000_0000;
    ValFour(Hhalf(h), Lhalf(h), Hhalf(l), Lhalf(l));
  }

  /** Putting four digits back together, as the source's union does. */
  function Assemble(a: nat, b: nat, c: nat, d: nat): nat {
    Combine(a, b) * 0x1_0000_0000 + Combine(c, d)
  }

  lemma AssembleIsVal(a: int, b: int, c: int, d: int)
    requires IsDigit(a) && IsDigit(b) && IsDigit(c) && IsDigit(d)
    ensures Assemble(a, b, c, d) == Val([a, b, c, d])
  {
    ValFour(a, b, c, d);
    CombineIsConcatenation(a, b);
    CombineIsConcatenation(c, d);
  }

  /** One digit of the short division of exercise 16. */
  method ShortStep(r: int, x: int, t: int) returns (q: int, r': int)
    requires IsDigit(t) && 0 <= r < t && IsDigit(x)
    ensures IsDigit(q) && DigitOf(r * 0x1_0000 + x, t, q, r')
  {
    CombineIsConcatenation(r, x);
    q := Combine(r, x) / t;
    r' := Combine(r, x) % t;
    ShortQuotient(r * 0x1_0000 + x, r, t);
  }

  lemma ShortQuotient(x: int, r: int, t: int)
    requires 0 <= r < t && 0 <= x <= r * 0x1_0000 + 0xffff
    ensures DigitOf(x, t, x / t, x % t) && 0 <= x / t < 0x1_0000
  {
    if x / t >= 0x1_0000 {
      MulLe(0x1_0000, x / t, t);
    }
    if x / t < 0 {
      MulLe(x / t, -1, t);
    }
  }

  /** The one-digit divisor: four short division steps. */
  method ShortDivide(u1: int, u2: int, u3: int, u4: int, t: int) returns (q: nat, r: int)
    requires IsDigit(u1) && IsDigit(u2) && IsDigit(u3) && IsDigit(u4) && IsDigit(t) && t != 0
    ensures DigitOf(Val([u1, u2, u3, u4]), t, q, r)
  {
    hide DigitOf, Val, Combine;
    var q1, r1 := ShortStep(0, u1, t);
    DigitOfBound(0 * 0x1_0000 + u1, t, q1, r1);
    var q2, r2 := ShortStep(r1, u2, t);
    DigitOfBound(r1 * 0x1_0000 + u2, t, q2, r2);
    var q3, r3 := ShortStep(r2, u3, t);
    DigitOfBound(r2 * 0x1_0000 + u3, t, q3, r3);
    var q4, r4 := ShortStep(r3, u4, t);
    ShortChain(u1, t, q1, r1, u2, q2, r2);
    ShortChain(u1 * 0x1_0000 + u2, t, q1 * 0x1_0000 + q2, r2, u3, q3, r3);
    ShortChain((u1 * 0x1_0000 + u2) * 0x1_0000 + u3, t, (q1 * 0x1_0000 + q2) * 0x1_0000 + q3, r3, u4, q4, r4);
    ValFour(u1, u2, u3, u4);
    ValFour(q1, q2, q3, q4);
    AssembleIsVal(q1, q2, q3, q4);
    q := Assemble(q1, q2, q3, q4);
    r := r4;
  }

  lemma DigitOfBound(u: int, v: int, q: int, r: int)
    requires DigitOf(u, v, q, r)
    ensures 0 <= r < v
  {
  }

  lemma ShortChain(u: int, t: int, q: int, r: int, x: int, q': int, r': int)
    requires DigitOf(u, t, q, r) && DigitOf(r * 0x1_0000 + x, t, q', r')
    ensures DigitOf(u * 0x1_0000 + x, t, q * 0x1_0000 + q', r')
  {
    MulAdd(q * 0x1_0000, q', t);
    MulAssoc(q, 0x1_0000, t);
    MulAssoc(q, t, 0x1_0000);
  }

  datatype Outcome = DivideByZero | Quotient(q: nat, rem: Option<int>)

  /** The quotient array with its first k digits zeroed, the rest indeterminate. */
  method ClearedQuotient(k: nat) returns (q: array<int>)
    requires k <= 5
    ensures fresh(q) && q.Length == 5 && AllDigits(q[..])
    ensures forall i :: 0 <= i < k ==> q[i] == 0
  {
    q := new int[5](_ => 0xdead);
    var i := k;
    while i > 0
      invariant 0 <= i <= k && AllDigits(q[..])
      invariant forall j :: i <= j < k ==> q[j] == 0
    {
      i := i - 1;
      q[i] := 0;
    }
  }

  /** From D1 to the end: divisors of two digits or more. */
  method LongDivide(u: array<int>, uo: nat, m: nat, v: array<int>, vo: nat, n: nat, wantRem: bool,
                    ghost ull: int, ghost vll: int) returns (quo: nat, rem: Option<int>)
    requires u != v && u.Length == 5 && v.Length == 5
    requires 2 <= n && uo + m + n == 4 && vo + n == 4
    requires AllDigits(u[..]) && AllDigits(v[..])
    requires forall k :: 0 <= k <= uo ==> u[k] == 0
    requires v[vo + 1] != 0
    requires Val(u[uo..uo + m + n + 1]) == ull && Val(v[vo + 1..vo + n + 1]) == vll
    modifies u, v
    ensures DigitOf(ull, vll, quo, ull - quo * vll)
    ensures rem == if wantRem then Some(ull - quo * vll) else None
  {
    hide Val, Pow, DigitOf, QuotRel, Combine, Assemble, Rounds;
    var q := ClearedQuotient(4 - m);
    var qo := 4 - m;
    var d := Normalise(u, uo, m, v, vo, n);
    ghost var s, w := u[..], Val(v[vo + 1..vo + n + 1]);
    assert s[uo..5] == u[uo..uo + m + n + 1];
    DivideAll(u, uo, m, v, vo, n, q, qo);
    ghost var fin := q[..];
    assert forall k :: 0 <= k < qo ==> fin[k] == q[..qo][k] == 0;
    ghost var r := ull - Val(fin[qo..5]) * vll;
    RoundsDone(s, u[..], uo, n, w, fin, qo, m, ull, vll, d);
    if wantRem {
      assert forall k :: 0 <= k < uo ==> u[k] == u[..uo][k] == 0;
      if d > 0 {
        assert u[uo + m + 1..uo + m + n + 1] == u[..][uo + m + 1..5];
        Unshift(u, uo + m, n, d, r);
        assert u[uo + m + 1..uo + m + n + 1] == u[..][uo + m + 1..5];
      }
      RemainderDigits(u[..], uo + m, r);
      rem := Some(Assemble(u[1], u[2], u[3], u[4]));
    } else {
      rem := None;
    }
    QuotientDigits(fin, qo);
    quo := Assemble(q[1], q[2], q[3], q[4]);
  }

  lemma RoundsDone(s: seq<int>, u: seq<int>, uo: nat, n: nat, w: int, q: seq<int>, qo: nat, m: nat, ull: int, vll: int, d: nat)
    requires |s| == |u| == |q| == 5 && uo + m + n == 4 && qo + m == 4
    requires Rounds(s, u, uo, n, w, q, qo, m + 1)
    requires Val(s[uo..5]) == ull * Pow2(d) && w == vll * Pow2(d)
    ensures AllDigits(u) && AllDigits(q) && (forall k :: uo <= k <= uo + m ==> u[k] == 0)
    ensures DigitOf(ull, vll, Val(q[qo..5]), ull - Val(q[qo..5]) * vll)
    ensures Val(u[uo + m + 1..5]) == (ull - Val(q[qo..5]) * vll) * Pow2(d)
  {
    Unscale(ull, vll, Pow2(d), Val(q[qo..5]), Val(u[uo..5]));
    ValDropZeros(u[uo..uo + m + 1], u[uo + m + 1..5]);
    assert u[uo..5] == u[uo..uo + m + 1] + u[uo + m + 1..5];
  }

  lemma RemainderDigits(u: seq<int>, k: nat, r: int)
    requires |u| == 5 && AllDigits(u) && k < 4 && (forall i :: 0 <= i <= k ==> u[i] == 0)
    requires Val(u[k + 1..5]) == r
    ensures Assemble(u[1], u[2], u[3], u[4]) == r
  {
    hide Val, Assemble;
    AssembleIsVal(u[1], u[2], u[3], u[4]);
    ValDropZeros(u[1..k + 1], u[k + 1..5]);
    assert u[1..k + 1] + u[k + 1..5] == [u[1], u[2], u[3], u[4]];
  }

  lemma QuotientDigits(q: seq<int>, k: nat)
    requires |q| == 5 && AllDigits(q) && 1 <= k <= 4 && (forall i :: 0 <= i < k ==> q[i] == 0)
    ensures Assemble(q[1], q[2], q[3], q[4]) == Val(q[k..5])
  {
    hide Val, Assemble;
    AssembleIsVal(q[1], q[2], q[3], q[4]);
    ValDropZeros(q[1..k], q[k..5]);
    assert q[1..k] + q[k..5] == [q[1], q[2], q[3], q[4]];
  }

  /** The digit array of a 64-bit value: a zero followed by its four digits. */
  method SplitQuad(x: int) returns (a: array<int>)
    requires 0 <= x < 0x1_0000_0000_0000_0000
    ensures fresh(a) && a.Length == 5 && AllDigits(a[..]) && a[0] == 0 && Val(a[1..5]) == x
  {
    DigitsOfQuad(x);
    var h, l := x / 0x1_0000_0000, x % 0x1_0000_0000;
    a := new int[5] [0, Hhalf(h), Lhalf(h), Hhalf(l), Lhalf(l)];
    assert a[1..5] == [Hhalf(h), Lhalf(h), Hhalf(l), Lhalf(l)];
  }

  /** __qdivrem: quotient and, when asked for, remainder of any two 64-bit values. */
  method Divide(ull: int, vll: int, wantRem: bool) returns (res: Outcome)
    requires 0 <= ull < 0x1_0000_0000_0000_0000 && 0 <= vll < 0x1_0000_0000_0000_0000
    ensures res.DivideByZero? <==> vll == 0
    ensures res.Quotient? ==> 0 <= ull - res.q * vll < vll
    ensures res.Quotient? ==> res.rem == if wantRem then Some(ull - res.q * vll) else None
  {
    hide Val, Pow, DigitOf;
    if vll == 0 {
      return DivideByZero;
    }
    if ull < vll {
      return Quotient(0, if wantRem then Some(ull) else None);
    }
    var u := SplitQuad(ull);
    var v := SplitQuad(vll);
    ghost var su, sv := u[..], v[..];
    assert u[1..5] == su[1..5] && v[1..5] == sv[1..5];
    var n, vo := 4, 0;
    while v[vo + 1] == 0
      invariant 2 <= n <= 4 && vo + n == 4
      invariant u[..] == su && v[..] == sv && Val(sv[vo + 1..5]) == vll
      decreases n
      modifies {}
    {
      n := n - 1;
      ValDropLeading(sv[vo + 1..5]);
      assert sv[vo + 1..5][1..] == sv[vo + 2..5];
      if n == 1 {
        ValOne(v[vo + 2]);
        assert sv[vo + 2..5] == [v[vo + 2]] && su[1..5] == [u[1], u[2], u[3], u[4]];
        var q, r := ShortDivide(u[1], u[2], u[3], u[4], v[vo + 2]);
        DigitOfMeaning(ull, vll, q, r);
        return Quotient(q, if wantRem then Some(r) else None);
      }
      vo := vo + 1;
    }
    assert u[1..5] == su[1..5] && v[vo + 1..5] == sv[vo + 1..5];
    var q, rem := DivideFrom(u, v, vo, n, wantRem, ull, vll);
    DigitOfMeaning(ull, vll, q, ull - q * vll);
    return Quotient(q, rem);
  }

  /** Counts the dividend's leading zero digits, then divides. */
  method DivideFrom(u: array<int>, v: array<int>, vo: nat, n: nat, wantRem: bool, ghost ull: int, ghost vll: int)
    returns (q: nat, rem: Option<int>)
    requires u != v && u.Length == 5 && v.Length == 5 && 2 <= n && vo + n == 4
    requires AllDigits(u[..]) && AllDigits(v[..]) && u[0] == 0 && v[vo + 1] != 0
    requires Val(u[1..5]) == ull && Val(v[vo + 1..5]) == vll && ull >= vll
    modifies u, v
    ensures DigitOf(ull, vll, q, ull - q * vll)
    ensures rem == if wantRem then Some(ull - q * vll) else None
  {
    hide Val, Pow, DigitOf;
    ghost var su, sv := u[..], v[..];
    assert u[1..5] == su[1..5] && v[vo + 1..5] == sv[vo + 1..5];
    var m, uo := 4 - n, 0;
    while u[uo + 1] == 0
      invariant 0 <= m && uo + m == 4 - n
      invariant u[..] == su && v[..] == sv
      invariant forall k :: 0 <= k <= uo ==> su[k] == 0
      invariant Val(su[uo + 1..5]) == ull
      decreases m
      modifies {}
    {
      DividendLongEnough(su[uo + 1..5], sv[vo + 1..5]);
      ValDropLeading(su[uo + 1..5]);
      assert su[uo + 1..5][1..] == su[uo + 2..5];
      uo := uo + 1;
      m := m - 1;
    }
    ValDropLeading(su[uo..5]);
    assert su[uo..5][1..] == su[uo + 1..5];
    assert u[uo..uo + m + n + 1] == su[uo..5] && v[vo + 1..vo + n + 1] == sv[vo + 1..5];
    q, rem := LongDivide(u, uo, m, v, vo, n, wantRem, ull, vll);
  }

  lemma DigitOfMeaning(u: int, v: int, q: int, r: int)
    requires DigitOf(u, v, q, r)
    ensures r == u - q * v && 0 <= r < v
  {
  }

  lemma ValOne(t: int)
    ensures Val([t]) == t
  {
  }

  lemma ValDropLeading(s: seq<int>)
    requires s != [] && s[0] == 0
    ensures Val(s) == Val(s[1..])
  {
    ValCons(s);
  }

  /** A dividend no smaller than the divisor has at least as many digits. */
  lemma DividendLongEnough(su: seq<int>, sv: seq<int>)
    requires AllDigits(su) && AllDigits(sv) && su != [] && sv != []
    requires su[0] == 0 && sv[0] != 0 && Val(su) >= Val(sv)
    ensures |su| > |sv|
  {
    BelowPower(su);
    LeadingNonzero(sv);
    PowMono(if |su| <= |sv| then |su| - 1 else |sv| - 1, |sv| - 1);
  }
}
