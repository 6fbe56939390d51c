/** Numbers as digit strings in base 8, 10 or 16, and back. */
module Numerals {
  import opened Arith

  predicate IsBase(base: int) {
    base == 8 || base == 10 || base == 16
  }

  function Glyph(d: int): char
    requires 0 <= d < 16
  {
    "0123456789abcdef"[d]
  }

  /** The numeral of n without leading zeros; that of 0 is "0". */
  function Numeral(n: nat, base: int): (s: string)
    requires IsBase(base)
    ensures |s| >= 1
  {
    if n < base then [Glyph(n)] else Numeral(n / base, base) + [Glyph(n % base)]
  }

  /** The value of a digit character, -1 if it is none. */
  function Digit(c: char): (d: int)
    ensures -1 <= d < 16
  {
    if '0' <= c <= '9' then c as int - '0' as int
    else if 'a' <= c <= 'f' then c as int - 'a' as int + 10
    else -1
  }

  predicate AreDigits(s: string, base: int) {
    forall i :: 0 <= i < |s| ==> 0 <= Digit(s[i]) < base
  }

  /** What a string of digits stands for. */
  function Value(s: string, base: int): int {
    if s == "" then 0 else Value(s[..|s| - 1], base) * base + Digit(s[|s| - 1])
  }

  /** The digits are those of C, in small letters. */
  lemma GlyphIs(d: int)
    requires 0 <= d < 16
    ensures Glyph(d) as int == if d < 10 then '0' as int + d else 'a' as int + d - 10
  {
  }

  lemma GlyphDigit(d: int)
    requires 0 <= d < 16
    ensures Digit(Glyph(d)) == d
  {
  }

  /** The digits printed evaluate back to the number. */
  lemma {:induction false} NumeralValue(n: nat, base: int)
    requires IsBase(base)
    ensures AreDigits(Numeral(n, base), base) && Value(Numeral(n, base), base) == n
  {
    var s := Numeral(n, base);
    if n < base {
      GlyphDigit(n);
      assert s[..0] == "";
    } else {
      NumeralValue(n / base, base);
      GlyphDigit(n % base);
      assert s[..|s| - 1] == Numeral(n / base, base);
    }
  }

  /** No leading zeros. */
  lemma {:induction false} NumeralLeading(n: nat, base: int)
    requires IsBase(base) && n > 0
    ensures Digit(Numeral(n, base)[0]) > 0
  {
    if n < base {
      GlyphDigit(n);
    } else {
      NumeralLeading(n / base, base);
    }
  }

  function Power(base: int, k: nat): int {
    if k == 0 then 1 else Power(base, k - 1) * base
  }

  /** A number below base to the k has at most k digits. */
  lemma {:induction false} NumeralLength(n: nat, base: int, k: nat)
    requires IsBase(base) && k >= 1 && n < Power(base, k)
    ensures |Numeral(n, base)| <= k
  {
    if n >= base {
      assert k > 1 by {
        assert Power(base, 1) == Power(base, 0) * base == base;
      }
      QuotientBound(n, base, Power(base, k - 1));
      NumeralLength(n / base, base, k - 1);
    }
  }

  lemma QuotientBound(n: nat, base: int, p: int)
    requires IsBase(base) && n < p * base
    ensures n / base < p
  {
  }

  /** 2^64 is below 8^22, so a 64-bit number has at most 22 digits. */
  lemma PowerOf22(base: int)
    requires IsBase(base)
    ensures Power(base, 22) >= 0x1_0000_0000_0000_0000
  {
    PowerMono(8, base, 22);
    PowerAdd(8, 11, 11);
    assert Power(8, 11) == 0x2_0000_0000 by {
      PowerAdd(8, 5, 6);
      assert Power(8, 5) == 32768 by {
        PowerSmall(8);
      }
      PowerAdd(8, 5, 1);
    }
  }

  lemma PowerSmall(b: int)
    ensures Power(b, 5) == b * b * b * b * b
  {
    assert Power(b, 1) == b;
    assert Power(b, 2) == b * b;
    assert Power(b, 3) == b * b * b;
    assert Power(b, 4) == b * b * b * b;
  }

  lemma {:induction false} PowerAdd(b: int, i: nat, j: nat)
    ensures Power(b, i + j) == Power(b, i) * Power(b, j)
  {
    if j > 0 {
      PowerAdd(b, i, j - 1);
      MulAssoc(Power(b, i), Power(b, j - 1), b);
    }
  }

  lemma {:induction false} PowerMono(a: int, b: int, k: nat)
    requires 1 <= a <= b
    ensures 1 <= Power(a, k) <= Power(b, k)
  {
    if k > 0 {
      PowerMono(a, b, k - 1);
      MulLe(Power(a, k - 1), Power(b, k - 1), a);
      MulLe(a, b, Power(b, k - 1));
      MulLe(1, Power(a, k - 1), a);
    }
  }

  lemma NumeralFits(n: nat, base: int)
    requires IsBase(base) && n < 0x1_0000_0000_0000_0000
    ensures |Numeral(n, base)| <= 22
  {
    PowerOf22(base);
    NumeralLength(n, base, 22);
  }
}
