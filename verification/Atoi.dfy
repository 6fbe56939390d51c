/** common/libc/stdlib/atoi.c. */
module Atoi {
  import opened Numerals
  import opened Words
  import opened Wrappers

  predicate IsBlank(c: char) {
    c == ' ' || c == '\t'
  }

  predicate IsDecimal(c: char) {
    '0' <= c <= '9'
  }

  function SkipBlanks(s: string): string {
    if s != "" && IsBlank(s[0]) then SkipBlanks(s[1..]) else s
  }

  /** The decimal digits a string starts with. */
  function Leading(s: string): string {
    if s != "" && IsDecimal(s[0]) then [s[0]] + Leading(s[1..]) else ""
  }

  /** The number a string starts with: blanks, a sign, digits. */
  function Parsed(s: string): int {
    var t := SkipBlanks(s);
    if t != "" && t[0] == '-' then -Value(Leading(t[1..]), 10)
    else if t != "" && t[0] == '+' then Value(Leading(t[1..]), 10)
    else Value(Leading(t), 10)
  }

  lemma ValueSnoc(s: string, c: char)
    ensures Value(s + [c], 10) == Value(s, 10) * 10 + Digit(c)
  {
    assert (s + [c])[..|s|] == s;
  }

  lemma LeadingSplit(s: string)
    ensures s != "" && IsDecimal(s[0]) ==> Leading(s) == [s[0]] + Leading(s[1..])
    ensures s == "" || !IsDecimal(s[0]) ==> Leading(s) == ""
  {
  }

  /** strchr() in the digit list: the index of c. */
  method IndexOfDigit(c: char) returns (where: Option<nat>)
    ensures where.Some? <==> IsDecimal(c)
    ensures where.Some? ==> where.value == Digit(c) && where.value < 10
  {
    var digits := "0123456789";
    var i := 0;
    while i < 10
      invariant 0 <= i <= 10 && (IsDecimal(c) ==> Digit(c) >= i)
    {
      if digits[i] == c {
        return Some(i);
      }
      i := i + 1;
    }
    return None;
  }

  /** The accumulation loop; val is a 32-bit unsigned. */
  method Accumulate(s: string) returns (val: int)
    ensures val == U32(Value(Leading(s), 10))
  {
    hide Value, U32, Leading, Digit;
    val := 0;
    var i := 0;
    ghost var seen := "";
    AccumulateStart(s);
    while i < |s|
      invariant i <= |s| && Leading(s) == seen + Leading(s[i..]) && val == U32(Value(seen, 10))
    {
      LeadingSplit(s[i..]);
      var where := IndexOfDigit(s[i]);
      if where.None? {
        assert seen + "" == seen;
        return;
      }
      ValueSnoc(seen, s[i]);
      HornerWrap(Value(seen, 10), where.value);
      Shift(seen, s, i);
      seen := seen + [s[i]];
      val := U32(val * 10 + where.value);
      i := i + 1;
    }
    LeadingSplit(s[i..]);
    assert seen + "" == seen;
  }

  lemma AccumulateStart(s: string)
    ensures Leading(s) == "" + Leading(s[0..]) && U32(Value("", 10)) == 0
  {
    assert s[0..] == s;
  }

  /** A digit moves from what is left to what has been seen. */
  lemma Shift(seen: string, s: string, i: nat)
    requires i < |s| && Leading(s[i..]) == [s[i]] + Leading(s[i..][1..])
    ensures seen + Leading(s[i..]) == seen + [s[i]] + Leading(s[i + 1..])
  {
    hide Leading;
    assert s[i..][1..] == s[i + 1..];
  }

  lemma HornerWrap(v: int, d: int)
    ensures U32(U32(v) * 10 + d) == U32(v * 10 + d)
  {
  }

  /** atoi(): the number the string starts with, modulo 2^32. */
  method Atoi(s: string) returns (r: int)
    ensures -0x8000_0000 <= r < 0x8000_0000
    ensures U32(r) == U32(Parsed(s))
  {
    var i := 0;
    assert s[0..] == s;
    while i < |s| && IsBlank(s[i])
      invariant i <= |s| && SkipBlanks(s) == SkipBlanks(s[i..])
    {
      assert s[i..][1..] == s[i + 1..];
      i := i + 1;
    }
    var t := s[i..];
    assert SkipBlanks(t) == t;
    var neg := false;
    if t != "" && t[0] == '-' {
      neg := true;
      t := t[1..];
    } else if t != "" && t[0] == '+' {
      t := t[1..];
    }
    var val := Accumulate(t);
    NegWrap(Value(Leading(t), 10));
    r := if neg then S32(U32(-val)) else S32(val);
  }

  lemma NegWrap(v: int)
    ensures U32(-U32(v)) == U32(-v)
  {
  }
}
