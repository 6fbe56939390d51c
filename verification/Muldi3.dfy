/** 64-bit multiplication from 16-bit products, common/gcc-millicode/muldi3.c:
    Knuth's three-multiplication scheme with hand-written carries. */
module Muldi3 {
  import opened Arith
  import opened Words

  /** The 64-bit value of a high and a low word. */
  function Quad(h: int, l: int): int {
    h * 0x1_0000_0000 + l
  }

  predicate IsWord(x: int) {
    0 <= x < 0x1_0000_0000
  }

  /** Word arithmetic wraps at most once when both operands are words. */
  lemma Wrap32(x: int)
    requires -0x1_0000_0000 <= x < 0x2_0000_0000
    ensures U32(x) == if x < 0 then x + 0x1_0000_0000 else if x < 0x1_0000_0000 then x else x - 0x1_0000_0000
  {
  }

  lemma Wrap64(x: int)
    requires -0x1_0000_0000_0000_0000 <= x < 0x2_0000_0000_0000_0000
    ensures U64(x) == if x < 0 then x + 0x1_0000_0000_0000_0000
                      else if x < 0x1_0000_0000_0000_0000 then x else x - 0x1_0000_0000_0000_0000
  {
  }

  /** Adding word pairs: a carry shows as a wrapped low word. */
  lemma PairAdd(h: int, l: int, yh: int, yl: int)
    requires IsWord(h) && IsWord(l) && 0 <= yh < 0xffff_ffff && IsWord(yl)
    ensures var l' := U32(l + yl);
            var h' := U32(h + yh + (if l' < l then 1 else 0));
            Quad(h', l') == U64(Quad(h, l) + Quad(yh, yl))
  {
    hide U32, U64;
    Wrap32(l + yl);
    Wrap32(h + yh + (if U32(l + yl) < l then 1 else 0));
    Wrap64(Quad(h, l) + Quad(yh, yl));
  }

  /** Subtracting word pairs: a borrow shows as a low word that grew. */
  lemma PairSub(h: int, l: int, yh: int, yl: int)
    requires IsWord(h) && IsWord(l) && 0 <= yh < 0xffff_ffff && IsWord(yl)
    ensures var l' := U32(l - yl);
            var h' := U32(h - (yh + (if l' > l then 1 else 0)));
            Quad(h', l') == U64(Quad(h, l) - Quad(yh, yl))
  {
    hide U32, U64;
    Wrap32(l - yl);
    Wrap32(h - (yh + (if U32(l - yl) > l then 1 else 0)));
    Wrap64(Quad(h, l) - Quad(yh, yl));
  }

  /** A word shifted left by 16 splits into HHALF and LHUP. */
  lemma ShiftedWord(x: int)
    requires IsWord(x)
    ensures Quad(Hhalf(x), Lhup(x)) == x * 0x1_0000
    ensures 0 <= Hhalf(x) < 0x1_0000 && IsWord(Lhup(x))
  {
    assert Lhup(x) == (x % 0x1_0000) * 0x1_0000;
  }

  /** Adding the low product: the source compares against the addend instead. */
  lemma AddLow(h: int, l: int, x: int)
    requires IsWord(h) && IsWord(l) && IsWord(x)
    ensures var l' := U32(l + x);
            var h' := if l' < x then U32(h + 1) else h;
            Quad(h', l') == U64(Quad(h, l) + x)
  {
    hide U32, U64;
    PairAdd(h, l, 0, x);
    Wrap32(l + x);
    Wrap32(h);
  }

  lemma Start(high: int)
    requires 0 <= high <= 0xffff * 0xffff
    ensures Quad(U32(high + Hhalf(high)), Lhup(high)) == U64(high * 0x1_0000_0000 + high * 0x1_0000)
  {
    ShiftedWord(high);
    WordIsItself(high + Hhalf(high));
    QuadIsItself(high * 0x1_0000_0000 + high * 0x1_0000);
  }

  lemma U64Add(x: int, y: int)
    ensures U64(U64(x) + y) == U64(x + y)
  {
  }

  /** Knuth's identity: three products give the four. */
  lemma ThreeProducts(u1: int, u0: int, v1: int, v0: int, k: int)
    ensures (u1 * k + u0) * (v1 * k + v0)
         == (u1 * v1) * (k * k) + (u1 * v1 + (u1 - u0) * (v0 - v1) + u0 * v0) * k + u0 * v0
  {
    var a, b, c, d := u1 * v1, u1 * v0, u0 * v1, u0 * v0;
    assert (u1 - u0) * (v0 - v1) == b - a - d + c by {
      MulAdd(u1, -u0, v0 - v1);
    }
    assert (u1 * k + u0) * (v1 * k + v0) == (u1 * k) * (v1 * k) + (u1 * k) * v0 + u0 * (v1 * k) + d by {
      MulAdd(u1 * k, u0, v1 * k + v0);
    }
    assert (u1 * k) * (v1 * k) == a * (k * k) by {
      MulAssoc(u1 * k, v1, k);
      MulAssoc(u1, k, v1);
      MulAssoc(u1, v1, k);
      MulAssoc(a, k, k);
    }
    assert (u1 * k) * v0 == b * k by {
      MulAssoc(u1, k, v0);
      MulAssoc(u1, v0, k);
    }
    assert u0 * (v1 * k) == c * k by {
      MulAssoc(u0, v1, k);
    }
    MulAdd(b, c, k);
  }

  /** The middle product, computed from absolute differences and a sign. */
  lemma MiddleProduct(u1: int, u0: int, v1: int, v0: int)
    ensures var ud := if u1 >= u0 then u1 - u0 else u0 - u1;
            var vd := if v0 >= v1 then v0 - v1 else v1 - v0;
            var neg := (u1 < u0) != (v0 < v1);
            (u1 - u0) * (v0 - v1) == if neg then -(ud * vd) else ud * vd
  {
    var x, y := u1 - u0, v0 - v1;
    assert (-x) * y == -(x * y) && x * (-y) == -(x * y) && (-x) * (-y) == x * y;
  }

  lemma DigitProduct(a: int, b: int)
    requires IsDigit(a) && IsDigit(b)
    ensures 0 <= a * b <= 0xffff * 0xffff && U32(a * b) == a * b
  {
    MulLe(a, 0xffff, b);
    MulLe(0, a, b);
    WordIsItself(a * b);
  }

  lemma WordIsItself(x: int)
    requires IsWord(x)
    ensures U32(x) == x
  {
  }

  /** __lmulq: the exact 64-bit product of two words. */
  method Lmulq(u: int, v: int) returns (h: int, l: int)
    requires IsWord(u) && IsWord(v)
    ensures IsWord(h) && IsWord(l)
    ensures Quad(h, l) == u * v
  {
    hide Lhup, U32, U64, Quad;
    var u1, u0, v1, v0 := Hhalf(u), Lhalf(u), Hhalf(v), Lhalf(v);
    DigitProduct(u0, v0);
    var low := U32(u0 * v0);
    if u1 == 0 && v1 == 0 {
      SmallQuad(low);
      return 0, low;
    }
    var udiff, neg: bool;
    if u1 >= u0 {
      udiff, neg := u1 - u0, false;
    } else {
      udiff, neg := u0 - u1, true;
    }
    var vdiff;
    if v0 >= v1 {
      vdiff := v0 - v1;
    } else {
      vdiff, neg := v1 - v0, !neg;
    }
    DigitProduct(udiff, vdiff);
    var mid := U32(udiff * vdiff);
    DigitProduct(u1, v1);
    var high := U32(u1 * v1);
    MiddleProduct(u1, u0, v1, v0);
    ThreeProducts(u1, u0, v1, v0, 0x1_0000);
    h, l := Accumulate(high, mid, neg, low);
    ProductFits(u, v);
  }

  lemma ProductFits(u: int, v: int)
    requires IsWord(u) && IsWord(v)
    ensures 0 <= u * v < 0x1_0000_0000_0000_0000
    ensures U64(u * v) == u * v
  {
    MulLe(u, 0xffff_ffff, v);
    MulLe(0, u, v);
    QuadIsItself(u * v);
  }

  lemma SmallQuad(l: int)
    ensures Quad(0, l) == l
  {
  }

  lemma QuadIsItself(x: int)
    requires 0 <= x < 0x1_0000_0000_0000_0000
    ensures U64(x) == x
  {
  }

  /** The carry-by-carry assembly of the product. */
  method Accumulate(high: int, mid: int, neg: bool, low: int) returns (prodh: int, prodl: int)
    requires 0 <= high <= 0xffff * 0xffff && IsWord(mid) && IsWord(low)
    ensures IsWord(prodh) && IsWord(prodl)
    ensures Quad(prodh, prodl)
         == U64(high * 0x1_0000_0000 + (high + (if neg then -mid else mid) + low) * 0x1_0000 + low)
  {
    hide Lhup, Hhalf, Quad, U32, U64;
    ShiftedWord(high);
    ShiftedWord(mid);
    ShiftedWord(low);
    Start(high);
    prodh, prodl := U32(high + Hhalf(high)), Lhup(high);
    ghost var total := high * 0x1_0000_0000 + high * 0x1_0000;
    var was := prodl;
    if neg {
      PairSub(prodh, prodl, Hhalf(mid), Lhup(mid));
      prodl := U32(prodl - Lhup(mid));
      prodh := U32(prodh - (Hhalf(mid) + (if prodl > was then 1 else 0)));
      U64Add(total, -mid * 0x1_0000);
      total := total - mid * 0x1_0000;
    } else {
      PairAdd(prodh, prodl, Hhalf(mid), Lhup(mid));
      prodl := U32(prodl + Lhup(mid));
      prodh := U32(prodh + Hhalf(mid) + (if prodl < was then 1 else 0));
      U64Add(total, mid * 0x1_0000);
      total := total + mid * 0x1_0000;
    }
    was := prodl;
    PairAdd(prodh, prodl, Hhalf(low), Lhup(low));
    prodl := U32(prodl + Lhup(low));
    prodh := U32(prodh + Hhalf(low) + (if prodl < was then 1 else 0));
    U64Add(total, low * 0x1_0000);
    total := total + low * 0x1_0000;
    AddLow(prodh, prodl, low);
    prodl := U32(prodl + low);
    if prodl < low {
      prodh := U32(prodh + 1);
    }
    U64Add(total, low);
  }

  /** __muldi3: the product of two signed 64-bit values, modulo 2^64. */
  method Muldi3(a: int, b: int) returns (r: int)
    requires IsS64(a) && IsS64(b)
    ensures r == S64(U64(a * b))
  {
    hide U32, U64, Quad;
    var negall := (a < 0) != (b < 0);
    var u, v := if a >= 0 then a else -a, if b >= 0 then b else -b;
    var u1, u0 := u / 0x1_0000_0000, u % 0x1_0000_0000;
    var v1, v0 := v / 0x1_0000_0000, v % 0x1_0000_0000;
    var prodh, prodl := Lmulq(u0, v0);
    if !(u1 == 0 && v1 == 0) {
      var negmid := (u1 < u0) != (v0 < v1);
      var udiff := if u1 >= u0 then u1 - u0 else u0 - u1;
      var vdiff := if v0 >= v1 then v0 - v1 else v1 - v0;
      var mid := U32(udiff * vdiff);
      var high := U32(u1 * v1);
      WholeProduct(u1, u0, v1, v0, prodh, prodl);
      prodh := U32(high + (if negmid then -mid else mid) + prodl + prodh);
    } else {
      ProductFits(u, v);
    }
    SignOfProduct(a, b, u, v);
    NegateQuad(u * v, Quad(prodh, prodl));
    r := S64(if negall then U64(-Quad(prodh, prodl)) else Quad(prodh, prodl));
  }

  /** The final sum of the source is the product modulo 2^64. */
  lemma WholeProduct(u1: int, u0: int, v1: int, v0: int, lowh: int, lowl: int)
    requires IsWord(lowh) && IsWord(lowl) && Quad(lowh, lowl) == u0 * v0
    ensures var neg := (u1 < u0) != (v0 < v1);
            var udiff := if u1 >= u0 then u1 - u0 else u0 - u1;
            var vdiff := if v0 >= v1 then v0 - v1 else v1 - v0;
            var mid := U32(udiff * vdiff);
            Quad(U32(U32(u1 * v1) + (if neg then -mid else mid) + lowl + lowh), lowl)
              == U64((u1 * 0x1_0000_0000 + u0) * (v1 * 0x1_0000_0000 + v0))
  {
    hide U32, U64, Quad, IsWord;
    var neg := (u1 < u0) != (v0 < v1);
    var udiff := if u1 >= u0 then u1 - u0 else u0 - u1;
    var vdiff := if v0 >= v1 then v0 - v1 else v1 - v0;
    MiddleProduct(u1, u0, v1, v0);
    ThreeProducts(u1, u0, v1, v0, 0x1_0000_0000);
    Discard(lowh, lowl, u1 * v1, udiff * vdiff, neg);
  }

  lemma SignOfProduct(a: int, b: int, u: int, v: int)
    requires u == (if a >= 0 then a else -a) && v == (if b >= 0 then b else -b)
    ensures a * b == if (a < 0) != (b < 0) then -(u * v) else u * v
  {
  }

  lemma NegateQuad(x: int, p: int)
    requires p == U64(x)
    ensures U64(-p) == U64(-x)
  {
  }

  /** Multiples of 2^64 vanish, so the upper halves of high and mid may be
      dropped before the final sum. */
  lemma Discard(lowh: int, lowl: int, hi: int, md: int, neg: bool)
    requires IsWord(lowh) && IsWord(lowl)
    ensures var low := Quad(lowh, lowl);
            var h := U32(U32(hi) + (if neg then -U32(md) else U32(md)) + lowl + lowh);
            Quad(h, lowl) == U64(hi * (0x1_0000_0000 * 0x1_0000_0000)
                                 + (hi + (if neg then -md else md) + low) * 0x1_0000_0000 + low)
  {
    var s := hi + (if neg then -md else md);
    var h := U32(U32(hi) + (if neg then -U32(md) else U32(md)) + lowl + lowh);
    SumOfWords(hi, md, lowl + lowh, neg);
    assert h == U32(s + lowl + lowh);
    HighWord(s + lowl + lowh, lowl, hi + lowh);
  }

  lemma SumOfWords(hi: int, md: int, rest: int, neg: bool)
    ensures U32(U32(hi) + (if neg then -U32(md) else U32(md)) + rest) == U32(hi + (if neg then -md else md) + rest)
  {
  }

  /** Only the low word of the high half survives. */
  lemma HighWord(x: int, l: int, k: int)
    requires IsWord(l)
    ensures Quad(U32(x), l) == U64(x * 0x1_0000_0000 + l + k * 0x1_0000_0000_0000_0000)
  {
    var y := x / 0x1_0000_0000;
    assert x == U32(x) + y * 0x1_0000_0000;
    assert x * 0x1_0000_0000 + l + k * 0x1_0000_0000_0000_0000
        == Quad(U32(x), l) + (y + k) * 0x1_0000_0000_0000_0000;
  }
}
