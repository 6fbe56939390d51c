/** atoi reads back what printf's %d directives print, unless the field is
    filled up with zeros on the right. */
module RoundTrip {
  import opened Arith
  import opened Atoi
  import opened Format
  import opened Numerals
  import opened Printf
  import opened Words

  // The value of a digit string and of its parts

  lemma {:induction false} ValueConcat(a: string, b: string)
    ensures Value(a + b, 10) == Value(a, 10) * Power(10, |b|) + Value(b, 10)
  {
    if b == "" {
      assert a + b == a;
    } else {
      var n, c := |b| - 1, b[|b| - 1];
      ValueConcat(a, b[..n]);
      ValueSnoc(a + b[..n], c);
      ValueSnoc(b[..n], c);
      assert a + b == a + b[..n] + [c] && b == b[..n] + [c];
      assert Power(10, |b|) == Power(10, n) * 10;
      hide Value, Power;
      Horner(Value(a, 10), Power(10, n), Value(b[..n], 10), Digit(c));
    }
  }

  lemma Horner(x: int, p: int, y: int, d: int)
    ensures (x * p + y) * 10 + d == x * (p * 10) + (y * 10 + d)
  {
    MulAdd(x * p, y, 10);
    MulAssoc(x, p, 10);
  }

  lemma {:induction false} ZerosValue(k: nat)
    ensures Value(Repeat('0', k), 10) == 0
  {
    if k > 0 {
      ZerosValue(k - 1);
      ValueSnoc(Repeat('0', k - 1), '0');
    }
  }

  lemma ZerosBefore(k: nat, d: string)
    ensures Value(Repeat('0', k) + d, 10) == Value(d, 10)
  {
    hide Value, Power, Repeat;
    ZerosValue(k);
    ValueConcat(Repeat('0', k), d);
  }

  lemma ZerosAfter(d: string, k: nat)
    ensures Value(d + Repeat('0', k), 10) == Value(d, 10) * Power(10, k)
  {
    hide Value, Power;
    ZerosValue(k);
    ValueConcat(d, Repeat('0', k));
  }

  // Reading

  predicate Stops(rest: string) {
    rest == "" || !IsDecimal(rest[0])
  }

  /** Digits are read up to the first character that is none. */
  lemma {:induction false} LeadingDigits(d: string, rest: string)
    requires AreDigits(d, 10) && Stops(rest)
    ensures Leading(d + rest) == d
  {
    if d == "" {
      assert d + rest == rest;
    } else {
      assert 0 <= Digit(d[0]) < 10 && IsDecimal(d[0]);
      assert (d + rest)[1..] == d[1..] + rest;
      LeadingDigits(d[1..], rest);
    }
  }

  lemma {:induction false} BlanksSkipped(k: nat, s: string)
    ensures SkipBlanks(Repeat(' ', k) + s) == SkipBlanks(s)
  {
    if k == 0 {
      assert Repeat(' ', k) + s == s;
    } else {
      BlanksSkipped(k - 1, [' '] + s);
      assert Repeat(' ', k) + s == Repeat(' ', k - 1) + ([' '] + s);
      assert ([' '] + s)[1..] == s;
    }
  }

  function SignOf(n: int): string {
    if n < 0 then "-" else ""
  }

  function Signed(n: int, v: int): int {
    if n < 0 then -v else v
  }

  /** Blanks, a sign, digits and anything that is no digit. */
  lemma ParsedParts(k: nat, n: int, d: string, rest: string)
    requires |d| >= 1 && AreDigits(d, 10) && Stops(rest)
    ensures Parsed(Repeat(' ', k) + (SignOf(n) + (d + rest))) == Signed(n, Value(d, 10))
  {
    var t := SignOf(n) + (d + rest);
    BlanksSkipped(k, t);
    LeadingDigits(d, rest);
    FirstDigit(n, d, rest);
    hide Value, Leading, AreDigits, Repeat, Digit;
  }

  lemma FirstDigit(n: int, d: string, rest: string)
    requires |d| >= 1 && AreDigits(d, 10)
    ensures
      var t := SignOf(n) + (d + rest);
      && t != "" && SkipBlanks(t) == t
      && if n < 0 then t[0] == '-' && t[1..] == d + rest else t[0] != '-' && t[0] != '+' && t == d + rest
  {
    assert 0 <= Digit(d[0]) < 10;
    var t := SignOf(n) + (d + rest);
    if n < 0 {
      assert t[0] == '-' && t[1..] == d + rest;
    } else {
      assert t == d + rest && t[0] == d[0];
    }
  }

  lemma {:induction false} AnyBlanksSkipped(b: string, s: string)
    requires forall i :: 0 <= i < |b| ==> b[i] == ' ' || b[i] == '\t'
    ensures SkipBlanks(b + s) == SkipBlanks(s)
  {
    if b == "" {
      assert b + s == s;
    } else {
      assert (b + s)[1..] == b[1..] + s;
      AnyBlanksSkipped(b[1..], s);
    }
  }

  /** What atoi reads: any blanks and tabs, no sign or one of the two, digits
      up to the first character that is none. */
  lemma ParsedNumber(b: string, sign: string, d: string, rest: string)
    requires (forall i :: 0 <= i < |b| ==> b[i] == ' ' || b[i] == '\t') && (sign == "" || sign == "-" || sign == "+")
    requires |d| >= 1 && (forall i :: 0 <= i < |d| ==> '0' <= d[i] <= '9')
    requires rest == "" || !('0' <= rest[0] <= '9')
    ensures Parsed(b + (sign + (d + rest))) == if sign == "-" then -Value(d, 10) else Value(d, 10)
  {
    var t := sign + (d + rest);
    AnyBlanksSkipped(b, t);
    DecimalDigits(d);
    LeadingDigits(d, rest);
    NumberStart(sign, d, rest);
    hide Value, Leading, Digit, AreDigits, SkipBlanks;
  }

  lemma DecimalDigits(d: string)
    requires forall i :: 0 <= i < |d| ==> '0' <= d[i] <= '9'
    ensures AreDigits(d, 10)
  {
  }

  lemma NumberStart(sign: string, d: string, rest: string)
    requires |d| >= 1 && '0' <= d[0] <= '9' && (sign == "" || sign == "-" || sign == "+")
    ensures
      var t := sign + (d + rest);
      && t != "" && SkipBlanks(t) == t
      && if sign == "" then t == d + rest && t[0] != '-' && t[0] != '+' else t[0] == sign[0] && t[1..] == d + rest
  {
    var t := sign + (d + rest);
    if sign == "" {
      assert t == d + rest && t[0] == d[0];
    } else {
      assert t[0] == sign[0] && t[1..] == d + rest;
    }
  }

  /** A string without digits where a number should be reads as 0. */
  lemma ParsedNothing(b: string, rest: string)
    requires forall i :: 0 <= i < |b| ==> b[i] == ' ' || b[i] == '\t'
    requires rest == "" || !(('0' <= rest[0] <= '9') || rest[0] in " \t+-")
    ensures Parsed(b + rest) == 0
  {
    AnyBlanksSkipped(b, rest);
    assert SkipBlanks(rest) == rest && Leading(rest) == "";
  }

  // What is printed

  /** The field is filled up with zeros behind the digits. */
  predicate ZerosRight(p: Spec, n: int) {
    p.left && p.zero && p.width > |SignOf(n)| + |Numeral(Abs(n), 10)|
  }

  /** How wide the padding is. */
  function Padding(p: Spec, n: int): nat {
    var w := |SignOf(n)| + |Numeral(Abs(n), 10)|;
    if p.width > w then p.width - w else 0
  }

  function Text(p: Spec, n: int): string {
    Field(p, SignOf(n), "", Numeral(Abs(n), 10))
  }

  lemma TextParts(p: Spec, n: int)
    ensures
      var d, k := Numeral(Abs(n), 10), Padding(p, n);
      Text(p, n) ==
      if p.left then Repeat(' ', 0) + (SignOf(n) + (d + Repeat(FillChar(p), k)))
      else if p.zero then Repeat(' ', 0) + (SignOf(n) + ((Repeat('0', k) + d) + ""))
      else Repeat(' ', k) + (SignOf(n) + (d + ""))
  {
    hide Numeral;
  }

  lemma ZerosAreDigits(k: nat)
    ensures AreDigits(Repeat('0', k), 10)
  {
  }

  lemma DigitsConcat(a: string, b: string)
    requires AreDigits(a, 10) && AreDigits(b, 10)
    ensures AreDigits(a + b, 10)
  {
  }

  /** The number a printed field reads as. */
  lemma ParsedText(p: Spec, n: int)
    ensures Parsed(Text(p, n)) == if ZerosRight(p, n) then n * Power(10, Padding(p, n)) else n
  {
    var d, k := Numeral(Abs(n), 10), Padding(p, n);
    TextParts(p, n);
    NumeralValue(Abs(n), 10);
    hide Parsed, Text, Numeral, Value, Power;
    ZerosAreDigits(k);
    if p.left && p.zero {
      DigitsConcat(d, Repeat('0', k));
      assert SignOf(n) + (d + Repeat('0', k)) == SignOf(n) + ((d + Repeat('0', k)) + "");
      ParsedParts(0, n, d + Repeat('0', k), "");
      ZerosAfter(d, k);
      NoPower(n, k);
      assert ZerosRight(p, n) <==> k > 0;
    } else if p.left {
      ParsedParts(0, n, d, Repeat(' ', k));
    } else if p.zero {
      DigitsConcat(Repeat('0', k), d);
      ParsedParts(0, n, Repeat('0', k) + d, "");
      ZerosBefore(k, d);
    } else {
      ParsedParts(k, n, d, "");
    }
  }

  lemma NoPower(n: int, k: nat)
    ensures Signed(n, Abs(n) * Power(10, k)) == n * Power(10, k)
    ensures k == 0 ==> n * Power(10, k) == n
  {
    if n < 0 {
      assert -(-n * Power(10, k)) == n * Power(10, k);
    }
  }

  predicate IsInt(n: int) {
    -0x8000_0000 <= n < 0x8000_0000
  }

  function Directive(mods: string): string {
    "%" + mods + "d"
  }

  /** Whatever its modifiers, the directive prints the int as one field. */
  lemma PrintedText(n: int, mods: string)
    requires AreModifiers(mods) && IsInt(n)
    ensures Output(Directive(mods), [NumArg(n)]) == Text(SpecOf(mods), n)
  {
    var fmt, args, k := Directive(mods), [NumArg(n)], |mods|;
    assert fmt[1..] == mods + "d" && fmt[1..1 + k] == mods && fmt[k + 2..] == "" && fmt[1 + k] == 'd';
    ModLenIs(fmt[1..], k);
    FetchedInt(SpecOf(mods), n);
    hide SpecOf, Numeral, Fetched, Field;
    assert Output("", Rest(args)) == "";
    assert NumberField(SpecOf(mods), 'd', args) == Text(SpecOf(mods), n);
    assert Text(SpecOf(mods), n) + "" == Text(SpecOf(mods), n);
  }

  lemma FetchedInt(p: Spec, n: int)
    requires IsInt(n)
    ensures Fetched(p, 'd', [NumArg(n)]) == n
  {
  }

  /** What is printed reads as the number printed if and only if no zeros are
      put behind it, or it is 0. */
  lemma ParsedOfPrinted(n: int, mods: string)
    requires AreModifiers(mods) && IsInt(n)
    ensures Parsed(Output(Directive(mods), [NumArg(n)])) == n <==> n == 0 || !ZerosRight(SpecOf(mods), n)
  {
    var p := SpecOf(mods);
    PrintedText(n, mods);
    ParsedText(p, n);
    hide Output, Parsed, SpecOf, Text, Numeral;
    if ZerosRight(p, n) && n != 0 {
      TenPower(Padding(p, n));
      NotTimes(n, Power(10, Padding(p, n)));
    }
  }

  lemma {:induction false} TenPower(k: nat)
    requires k > 0
    ensures Power(10, k) >= 10 && Power(10, k) % 2 == 0
  {
    var p := Power(10, k - 1);
    assert Power(10, k) == p * 10;
    assert p >= 1 by {
      if k > 1 {
        TenPower(k - 1);
      }
    }
    hide Power;
    TimesTen(p);
  }

  lemma TimesTen(p: int)
    requires p >= 1
    ensures p * 10 >= 10 && p * 10 % 2 == 0
  {
    var h := p * 5;
    assert p * 10 == h * 2;
    MultipleMod(h, 2);
  }

  lemma NotTimes(n: int, p: int)
    requires n != 0 && p > 1
    ensures n * p != n
  {
    MulAdd(p - 1, 1, n);
    if n > 0 {
      MulLe(1, p - 1, n);
    } else {
      MulLe(1, p - 1, -n);
    }
  }

  // In 32 bits

  /** An odd factor does not help a number to be divisible by a power of 2. */
  lemma {:induction false} OddFactor(n: int, m: int, j: nat, q: int) returns (r: int)
    requires m % 2 == 1 && n * m == q * Power(2, j)
    ensures n == r * Power(2, j)
    decreases j
  {
    if j == 0 {
      r := n;
    } else {
      var p := Power(2, j - 1);
      assert Power(2, j) == p * 2;
      hide Power;
      MulAssoc(q, p, 2);
      EvenFactor(n, m, q * p);
      r := OddFactor(n / 2, m, j - 1, q);
      MulAssoc(r, p, 2);
    }
  }

  lemma EvenFactor(n: int, m: int, half: int)
    requires m % 2 == 1 && n * m == half * 2
    ensures n % 2 == 0 && (n / 2) * m == half
  {
    var a, b := m / 2, n / 2;
    MulAdd(2 * a, 1, n);
    MulAssoc(2, a, n);
    assert n == (half - a * n) * 2;
    assert n == b * 2;
    MulAssoc(2, b, m);
  }

  lemma TwoTo32()
    ensures Power(2, 32) == 0x1_0000_0000
  {
    PowerSmall(2);
    PowerAdd(2, 5, 5);
    PowerAdd(2, 10, 5);
    PowerAdd(2, 15, 15);
    assert Power(2, 1) == Power(2, 0) * 2 && Power(2, 2) == Power(2, 1) * 2;
    PowerAdd(2, 30, 2);
  }

  /** Zeros behind an int other than 0 change it even modulo 2^32. */
  lemma ZerosChange(n: int, k: nat)
    requires IsInt(n) && k > 0 && n != 0
    ensures U32(n * Power(10, k)) != U32(n)
  {
    TenPower(k);
    TwoTo32();
    hide Power, U32;
    var p := Power(10, k);
    if U32(n * p) == U32(n) {
      var q := SameResidue(n * p, n);
      LessOne(n, p);
      var r := OddFactor(n, p - 1, 32, q);
      assert false;
    }
  }

  lemma SameResidue(x: int, y: int) returns (q: int)
    requires U32(x) == U32(y)
    ensures x - y == q * 0x1_0000_0000
  {
    q := x / 0x1_0000_0000 - y / 0x1_0000_0000;
  }

  lemma LessOne(n: int, p: int)
    requires p % 2 == 0
    ensures n * (p - 1) == n * p - n && (p - 1) % 2 == 1
  {
  }

  // In a buffer

  predicate NoNul(s: string) {
    forall i :: 0 <= i < |s| ==> s[i] != '\0'
  }

  lemma {:induction false} CStringOf(s: string, rest: string)
    requires NoNul(s)
    ensures CString(s + ['\0'] + rest) == s
  {
    var t := s + ['\0'] + rest;
    if s != "" {
      assert t[1..] == s[1..] + ['\0'] + rest;
      CStringOf(s[1..], rest);
    }
  }

  lemma TextHasNoNul(p: Spec, n: int)
    ensures NoNul(Text(p, n))
  {
    hide Numeral;
    var d := Numeral(Abs(n), 10);
    NumeralValue(Abs(n), 10);
    forall i | 0 <= i < |d|
      ensures d[i] != '\0'
    {
      assert 0 <= Digit(d[i]) < 10;
    }
  }

  lemma SameInt(a: int, b: int)
    requires IsInt(a) && IsInt(b) && U32(a) == U32(b)
    ensures a == b
  {
  }

  lemma WhatAtoiFinds(n: int, mods: string, r: int)
    requires AreModifiers(mods) && IsInt(n) && IsInt(r)
    requires U32(r) == U32(Parsed(Text(SpecOf(mods), n)))
    ensures r == n <==> n == 0 || !ZerosRight(SpecOf(mods), n)
  {
    var p := SpecOf(mods);
    ParsedText(p, n);
    hide Parsed, Text, SpecOf, Numeral, Power;
    if ZerosRight(p, n) && n != 0 {
      ZerosChange(n, Padding(p, n));
    } else {
      assert n == 0 ==> n * Power(10, Padding(p, n)) == 0;
      hide U32;
      SameInt(r, n);
    }
  }

  /** Printing an int with %d, under any modifiers, into a buffer that takes
      the whole text, and reading the buffer up to its NUL with atoi. */
  method PrintThenParse(n: int, mods: string, len: nat) returns (r: int)
    requires AreModifiers(mods) && IsInt(n) && |Output(Directive(mods), [NumArg(n)])| < len
    ensures r == n <==> n == 0 || !ZerosRight(SpecOf(mods), n)
  {
    hide Output, Parsed, Text, SpecOf, ZerosRight;
    var buf := new char[len];
    ghost var was := buf[..];
    var chars := Vsnprintf(buf, len, Directive(mods), [NumArg(n)]);
    ghost var out := Output(Directive(mods), [NumArg(n)]);
    assert out[..chars] == out;
    PrintedText(n, mods);
    TextHasNoNul(SpecOf(mods), n);
    CStringOf(out, was[chars + 1..]);
    r := Atoi.Atoi(CString(buf[..]));
    WhatAtoiFinds(n, mods, r);
  }

  /** An int prints as at most 11 characters. */
  lemma DecimalLength(n: int)
    requires IsInt(n)
    ensures |Output("%d", [NumArg(n)])| <= 11 && !ZerosRight(SpecOf(""), n)
  {
    PrintedText(n, "");
    assert Directive("") == "%d";
    SpecStart();
    hide Numeral, Output;
    PowerAdd(10, 5, 5);
    PowerSmall(10);
    NumeralLength(Abs(n), 10, 10);
  }

  /** Plain %d into any buffer of 12 characters or more is read back exactly. */
  method DecimalRoundTrip(n: int, len: nat) returns (r: int)
    requires IsInt(n) && len >= 12
    ensures r == n
  {
    hide Output, SpecOf, ZerosRight;
    DecimalLength(n);
    assert Directive("") == "%d";
    r := PrintThenParse(n, "", len);
  }

  /** "%-05d" prints 5 as "50000". */
  lemma ZerosOnTheRight()
    ensures Output(Directive("-05"), [NumArg(5)]) == "50000"
  {
    hide SpecOf, Output, Text, Directive;
    PrintedText(5, "-05");
    MinusZeroFive();
    FiveInFive();
  }

  lemma Minus()
    ensures SpecOf("-") == Spec(IntSz, 0, true, false, false)
  {
    SpecStart();
    SpecExtend("", '-');
    hide SpecOf;
    assert "" + ['-'] == "-";
  }

  lemma MinusZero()
    ensures SpecOf("-0") == Spec(IntSz, 0, true, true, false)
  {
    Minus();
    SpecExtend("-", '0');
    hide SpecOf;
    assert "-" + ['0'] == "-0";
  }

  lemma MinusZeroFive()
    ensures SpecOf("-05") == Spec(IntSz, 5, true, true, false)
  {
    MinusZero();
    SpecExtend("-0", '5');
    hide SpecOf;
    assert "-0" + ['5'] == "-05";
  }

  lemma FiveInFive()
    ensures Text(Spec(IntSz, 5, true, true, false), 5) == "50000"
  {
    assert Numeral(5, 10) == "5";
    var zeros := Repeat('0', 4);
    assert zeros == "0000";
    hide Numeral, Repeat;
    assert "" + "" + "5" + "0000" == "50000";
  }
}
