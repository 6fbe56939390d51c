/** What the directives of printf print, said of the output itself: the value
    of every number in its base, signs, prefixes, padding on either side, the
    other conversions, and how a format falls into its directives. */
module Directives {
  import opened Format
  import opened Numerals
  import opened Words
  import opened Wrappers

  // A format and its parts

  /** Text without directives prints as it is, and goes before the rest. */
  lemma {:induction false} PlainText(text: string, rest: string, args: seq<Arg>)
    requires '%' !in text
    ensures Output(text + rest, args) == text + Output(rest, args)
  {
    hide DirectiveText, SpecOf, ModLen, DirectiveRest;
    if text == "" {
      assert text + rest == rest;
    } else {
      assert text[0] != '%' && '%' !in text[1..];
      assert (text + rest)[1..] == text[1..] + rest;
      PlainText(text[1..], rest, args);
      assert text == [text[0]] + text[1..];
    }
  }

  /** A directive prints its field and takes its argument; the rest of the
      format sees the arguments that remain. */
  lemma DirectiveThenRest(mods: string, c: char, rest: string, args: seq<Arg>)
    requires AreModifiers(mods) && !IsModifier(c)
    ensures Output("%" + mods + [c] + rest, args)
         == DirectiveText(SpecOf(mods), c, args)
            + Output(rest, if c in "dcsoupx" && args != [] then args[1..] else args)
  {
    FormatSplits(mods, c, rest, args);
    TakesArgument(c, args);
    hide *;
  }

  lemma TakesArgument(c: char, args: seq<Arg>)
    ensures DirectiveRest(c, args) == if c in "dcsoupx" && args != [] then args[1..] else args
  {
  }

  lemma FormatSplits(mods: string, c: char, rest: string, args: seq<Arg>)
    requires AreModifiers(mods) && !IsModifier(c)
    ensures Output("%" + mods + [c] + rest, args)
         == DirectiveText(SpecOf(mods), c, args) + Output(rest, DirectiveRest(c, args))
  {
    hide SpecOf, DirectiveText, DirectiveRest, IsModifier, ModLen;
    var fmt, k := "%" + mods + [c] + rest, |mods|;
    assert fmt[1..] == mods + [c] + rest && fmt[1..1 + k] == mods && fmt[k + 2..] == rest && fmt[1 + k] == c;
    ModLenIs(fmt[1..], k);
  }

  lemma OneDirective(mods: string, c: char, args: seq<Arg>)
    requires AreModifiers(mods) && !IsModifier(c)
    ensures Output("%" + mods + [c], args) == DirectiveText(SpecOf(mods), c, args)
  {
    DirectiveThenRest(mods, c, "", args);
    assert "%" + mods + [c] + "" == "%" + mods + [c];
    NoFormat(if c in "dcsoupx" && args != [] then args[1..] else args);
    hide Output, DirectiveText, SpecOf;
  }

  lemma NoFormat(args: seq<Arg>)
    ensures Output("", args) == ""
  {
  }

  /** A format that ends inside a directive prints nothing for it. */
  lemma UnfinishedDirective(mods: string, args: seq<Arg>)
    requires AreModifiers(mods)
    ensures Output("%" + mods, args) == ""
  {
    var fmt := "%" + mods;
    assert fmt[1..] == mods;
    ModLenAll(mods);
    hide SpecOf, DirectiveText, DirectiveRest, IsModifier, ModLen;
  }

  // Numbers

  /** The length modifiers that are used with numbers. */
  predicate IsLength(mods: string) {
    mods == "" || mods == "l" || mods == "ll" || mods == "z"
  }

  lemma LengthSpec(mods: string)
    requires IsLength(mods)
    ensures AreModifiers(mods)
    ensures SpecOf(mods) == Spec(if mods == "" then IntSz else if mods == "l" then LongSz
                                 else if mods == "ll" then LlongSz else SizetSz, 0, false, false, false)
    decreases |mods|
  {
    SpecStart();
    hide SpecOf;
    if mods == "z" {
      SpecSnoc("", 'z');
      assert "" + ['z'] == "z";
    } else if mods == "l" {
      SpecSnoc("", 'l');
      assert "" + ['l'] == "l";
    } else if mods == "ll" {
      LengthSpec("l");
      SpecSnoc("l", 'l');
      assert "l" + ['l'] == "ll";
    }
  }

  /** One more modifier. */
  lemma SpecSnoc(mods: string, c: char)
    requires AreModifiers(mods) && IsModifier(c)
    ensures AreModifiers(mods + [c]) && SpecOf(mods + [c]) == Modify(SpecOf(mods), c)
  {
    SpecExtend(mods, c);
    hide SpecOf, IsModifier;
  }

  /** A numeral of v in the given base, without superfluous zeros. */
  ghost predicate Denotes(s: string, v: nat, base: int) {
    && |s| >= 1 && AreDigits(s, base) && Value(s, base) == v
    && (|s| > 1 ==> Digit(s[0]) > 0)
  }

  lemma NumeralDenotes(v: nat, base: int)
    requires IsBase(base)
    ensures Denotes(Numeral(v, base), v, base)
  {
    NumeralValue(v, base);
    if v > 0 {
      NumeralLeading(v, base);
    }
  }

  lemma BareField(p: Spec, sign: string, basePrefix: string, digits: string)
    requires p.width == 0
    ensures Field(p, sign, basePrefix, digits) == sign + basePrefix + digits
  {
    assert Repeat(FillChar(p), 0) == "";
  }

  /** The field a directive prints a number in. */
  lemma NumberText(p: Spec, c: char, n: int)
    requires c in "doupx" && p.width == 0
    ensures
      var v := Fetched(p, c, [NumArg(n)]);
      var base := if c == 'd' || c == 'u' then 10 else if c == 'o' then 8 else 16;
      DirectiveText(p, c, [NumArg(n)]) ==
      (if v < 0 then "-" else "")
      + (if base == 16 && (p.alt || c == 'p') then "0x" else if base == 8 && p.alt then "0" else "")
      + Numeral(Abs(v), base)
  {
    hide Numeral, Fetched;
    var v := Fetched(p, c, [NumArg(n)]);
    var base := if c == 'd' || c == 'u' then 10 else if c == 'o' then 8 else 16;
    BareField(p, if v < 0 then "-" else "",
              if base == 16 && (p.alt || c == 'p') then "0x" else if base == 8 && p.alt then "0" else "",
              Numeral(Abs(v), base));
  }

  /** The argument as its type has it. */
  lemma NumberValue(p: Spec, c: char, n: int)
    requires c in "doupx"
    ensures Fetched(p, c, [NumArg(n)]) ==
            if c == 'd' then (if p.size == LlongSz then S64(U64(n)) else S32(U32(n)))
            else if p.size == LlongSz && c != 'p' then U64(n) else U32(n)
  {
  }

  /** %u, %x and %o print the argument, modulo 2^32 or with ll modulo 2^64, in
      base 10, 16 and 8. */
  lemma UnsignedValue(mods: string, c: char, n: int)
    requires IsLength(mods) && (c == 'u' || c == 'x' || c == 'o')
    ensures Denotes(Output("%" + mods + [c], [NumArg(n)]), if mods == "ll" then U64(n) else U32(n),
                    if c == 'u' then 10 else if c == 'x' then 16 else 8)
  {
    hide Output, SpecOf, Numeral, Denotes, DirectiveText, Fetched, AreModifiers, U32, U64, S32, S64;
    var v, base := if mods == "ll" then U64(n) else U32(n), if c == 'u' then 10 else if c == 'x' then 16 else 8;
    LengthSpec(mods);
    OneDirective(mods, c, [NumArg(n)]);
    NumberText(SpecOf(mods), c, n);
    NumberValue(SpecOf(mods), c, n);
    NumeralDenotes(v, base);
    assert "" + "" + Numeral(v, base) == Numeral(v, base);
  }

  /** %d prints a minus exactly when the argument, as an int or a long long,
      is negative, and its magnitude in base 10. */
  lemma SignedValue(mods: string, n: int)
    requires IsLength(mods)
    ensures
      var v := if mods == "ll" then S64(U64(n)) else S32(U32(n));
      var out := Output("%" + mods + ['d'], [NumArg(n)]);
      if v < 0 then |out| > 0 && out[0] == '-' && Denotes(out[1..], -v, 10) else Denotes(out, v, 10)
  {
    hide Output, SpecOf, Numeral, Denotes, DirectiveText, Fetched, AreModifiers, U32, U64, S32, S64;
    var v := if mods == "ll" then S64(U64(n)) else S32(U32(n));
    var sign, digits := if v < 0 then "-" else "", Numeral(Abs(v), 10);
    LengthSpec(mods);
    OneDirective(mods, 'd', [NumArg(n)]);
    NumberText(SpecOf(mods), 'd', n);
    NumberValue(SpecOf(mods), 'd', n);
    NumeralDenotes(Abs(v), 10);
    assert sign + "" + digits == sign + digits && ("-" + digits)[1..] == digits && "" + digits == digits;
  }

  /** %p prints "0x" and the pointer in base 16. */
  lemma PointerValue(n: int)
    ensures
      var out := Output("%" + "" + ['p'], [NumArg(n)]);
      |out| > 2 && out[..2] == "0x" && Denotes(out[2..], U32(n), 16)
  {
    SpecStart();
    hide Output, SpecOf, Numeral, Denotes, DirectiveText, Fetched, AreModifiers, U32, U64, S32, S64;
    LengthSpec("");
    OneDirective("", 'p', [NumArg(n)]);
    NumberText(SpecOf(""), 'p', n);
    NumberValue(SpecOf(""), 'p', n);
    var digits := Numeral(U32(n), 16);
    NumeralDenotes(U32(n), 16);
    var out := "" + "0x" + digits;
    assert out[..2] == "0x" && out[2..] == digits;
  }

  /** With # a hexadecimal number has "0x" before it and an octal one "0". */
  lemma PrefixedValue(c: char, n: int)
    requires c == 'x' || c == 'o'
    ensures
      var out, prefix := Output("%" + "#" + [c], [NumArg(n)]), if c == 'x' then "0x" else "0";
      && |out| > |prefix| && out[..|prefix|] == prefix
      && Denotes(out[|prefix|..], U32(n), if c == 'x' then 16 else 8)
  {
    HashSpec();
    hide Output, SpecOf, Numeral, Denotes, DirectiveText, Fetched, AreModifiers, U32, U64, S32, S64;
    var base, prefix := if c == 'x' then 16 else 8, if c == 'x' then "0x" else "0";
    var digits := Numeral(U32(n), base);
    OneDirective("#", c, [NumArg(n)]);
    NumberText(SpecOf("#"), c, n);
    NumberValue(SpecOf("#"), c, n);
    NumeralDenotes(U32(n), base);
    var out := "" + prefix + digits;
    assert out[..|prefix|] == prefix && out[|prefix|..] == digits;
  }

  lemma HashSpec()
    ensures AreModifiers("#") && SpecOf("#") == Spec(IntSz, 0, false, false, true)
  {
    SpecStart();
    hide SpecOf;
    SpecSnoc("", '#');
    assert "" + ['#'] == "#";
  }

  // Padding

  /** A width: a decimal number that does not start with a zero. */
  predicate IsWidth(w: string) {
    |w| >= 1 && AreDigits(w, 10) && w[0] != '0'
  }

  lemma {:induction false} WidthModifiers(w: string)
    requires AreDigits(w, 10)
    ensures AreModifiers(w) && WidthOf(w) == Value(w, 10) && SizeOf(w) == IntSz && '-' !in w && '#' !in w
  {
    if w != "" {
      var n := |w| - 1;
      WidthModifiers(w[..n]);
      DigitIs(w[n]);
      assert 0 <= Digit(w[n]) < 10;
      assert w == w[..n] + [w[n]];
    }
  }

  lemma DigitIs(c: char)
    requires 0 <= Digit(c) < 10
    ensures '0' <= c <= '9' && IsModifier(c) && c != '-' && c != '#' && c != 'l' && c != 'z'
  {
    var digits := "0123456789";
    assert c == digits[Digit(c)];
    assert forall i :: 0 <= i < 10 ==> digits[i] in "#-lz0123456789";
  }

  /** No zero padding is asked for by a width alone. */
  lemma {:induction false} WidthNoZeroPad(w: string)
    requires IsWidth(w)
    ensures !ZeroPad(w) && WidthOf(w) > 0
  {
    var n := |w| - 1;
    assert w == w[..n] + [w[n]];
    assert 0 <= Digit(w[n]) < 10 && 0 < Digit(w[0]) by {
      DigitIs(w[0]);
    }
    DigitIs(w[n]);
    ZeroExtend(w[..n], w[n]);
    if n == 0 {
      assert w[..0] == "";
      NoZeroPad();
    } else {
      WidthNoZeroPad(w[..n]);
    }
  }

  lemma NoZeroPad()
    ensures !ZeroPad("") && WidthOf("") == 0
  {
  }

  lemma WidthSpec(w: string)
    requires IsWidth(w)
    ensures AreModifiers(w) && SpecOf(w) == Spec(IntSz, WidthOf(w), false, false, false)
    ensures WidthOf(w) == Value(w, 10) > 0
  {
    WidthModifiers(w);
    WidthNoZeroPad(w);
    hide WidthOf, ZeroPad, SizeOf;
  }

  lemma WidthSnoc(w: string, c: char)
    requires 0 <= Digit(c) < 10
    ensures WidthOf(w + [c]) == WidthOf(w) * 10 + Digit(c)
  {
    DigitIs(c);
    assert (w + [c])[..|w|] == w;
  }

  /** The modifiers of a spec from a flag and a width. */
  lemma {:induction false} FlagThenWidth(flag: char, w: string)
    requires (flag == '-' || flag == '0') && AreDigits(w, 10)
    ensures AreModifiers([flag] + w)
    ensures SpecOf([flag] + w) == Spec(IntSz, WidthOf(w), flag == '-', flag == '0' || ZeroPad(w), false)
  {
    if w == "" {
      FlagSpec(flag);
      assert [flag] + w == [flag];
      NoZeroPad();
    } else {
      var n := |w| - 1;
      var x, c := w[..n], w[n];
      assert w == x + [c] && [flag] + w == [flag] + x + [c];
      assert AreDigits(x, 10) && 0 <= Digit(c) < 10;
      DigitIs(c);
      hide *;
      FlagThenWidth(flag, x);
      SpecSnoc([flag] + x, c);
      FlagStep(SpecOf([flag] + x), c, WidthOf(x));
      WidthSnoc(x, c);
      ZeroExtend(x, c);
    }
  }

  lemma FlagSpec(flag: char)
    requires flag == '-' || flag == '0'
    ensures AreModifiers([flag]) && SpecOf([flag]) == Spec(IntSz, 0, flag == '-', flag == '0', false)
  {
    SpecStart();
    hide SpecOf;
    SpecSnoc("", flag);
    assert "" + [flag] == [flag];
  }

  lemma FlagStep(p: Spec, c: char, v: nat)
    requires 0 <= Digit(c) < 10 && p.width == v
    ensures Modify(p, c) == p.(width := v * 10 + Digit(c), zero := p.zero || (c == '0' && v == 0))
  {
    DigitIs(c);
  }

  function Blanks(k: int): string {
    Repeat(' ', if k > 0 then k else 0)
  }

  function Zeros(k: int): string {
    Repeat('0', if k > 0 then k else 0)
  }

  function SignOf(n: int): string {
    if S32(U32(n)) < 0 then "-" else ""
  }

  /** The text of %d with modifiers that leave size and prefix alone. */
  lemma Padded(mods: string, n: int)
    requires AreModifiers(mods) && SpecOf(mods).size == IntSz && !SpecOf(mods).alt
    ensures Output("%" + mods + ['d'], [NumArg(n)]) == Field(SpecOf(mods), SignOf(n), "", Numeral(Abs(S32(U32(n))), 10))
  {
    DecimalText(SpecOf(mods), n);
    NotModifiers();
    hide *;
    OneDirective(mods, 'd', [NumArg(n)]);
  }

  lemma NotModifiers()
    ensures !IsModifier('d') && !IsModifier('s') && IsBase(10) && AreModifiers("")
  {
  }

  /** A width puts blanks before the number, or after it with a minus; a zero
      before the width puts zeros between the sign and the digits. The bare
      text is that of plain %d. */
  lemma PaddedNumber(w: string, n: int)
    requires IsWidth(w)
    ensures
      var bare, width := Output("%" + "" + ['d'], [NumArg(n)]), Value(w, 10);
      && Output("%" + w + ['d'], [NumArg(n)]) == Blanks(width - |bare|) + bare
      && Output("%" + (['-'] + w) + ['d'], [NumArg(n)]) == bare + Blanks(width - |bare|)
      && |SignOf(n)| <= |bare| && bare[..|SignOf(n)|] == SignOf(n)
      && Output("%" + (['0'] + w) + ['d'], [NumArg(n)]) == SignOf(n) + Zeros(width - |bare|) + bare[|SignOf(n)|..]
  {
    NotModifiers();
    hide *;
    WidthSpecs(w);
    Padded("", n);
    Padded(w, n);
    Padded(['-'] + w, n);
    Padded(['0'] + w, n);
    var sign, digits := SignOf(n), Numeral(Abs(S32(U32(n))), 10);
    PaddedField(sign, digits, WidthOf(w));
    assert (sign + digits)[..|sign|] == sign;
  }

  lemma DecimalText(p: Spec, n: int)
    requires p.size == IntSz && !p.alt
    ensures
      DirectiveText(p, 'd', [NumArg(n)]) == Field(p, SignOf(n), "", Numeral(Abs(S32(U32(n))), 10))
  {
    hide Numeral, Field;
  }

  lemma WidthSpecs(w: string)
    requires IsWidth(w)
    ensures AreModifiers("") && AreModifiers(w) && AreModifiers(['-'] + w) && AreModifiers(['0'] + w)
    ensures SpecOf("") == Spec(IntSz, 0, false, false, false)
    ensures SpecOf(w) == Spec(IntSz, WidthOf(w), false, false, false)
    ensures SpecOf(['-'] + w) == Spec(IntSz, WidthOf(w), true, false, false)
    ensures SpecOf(['0'] + w) == Spec(IntSz, WidthOf(w), false, true, false)
    ensures WidthOf(w) == Value(w, 10)
    ensures !IsModifier('d') && !IsModifier('s')
  {
    NotModifiers();
    hide SpecOf, WidthOf, ZeroPad, Value, AreModifiers, IsModifier;
    SpecStart();
    WidthSpec(w);
    FlagThenWidth('-', w);
    FlagThenWidth('0', w);
    WidthNoZeroPad(w);
  }

  lemma PaddedField(sign: string, digits: string, width: nat)
    ensures
      var bare := Field(Spec(IntSz, 0, false, false, false), sign, "", digits);
      && bare == sign + digits
      && Field(Spec(IntSz, width, false, false, false), sign, "", digits) == Blanks(width - |bare|) + bare
      && Field(Spec(IntSz, width, true, false, false), sign, "", digits) == bare + Blanks(width - |bare|)
      && Field(Spec(IntSz, width, false, true, false), sign, "", digits)
         == sign + Zeros(width - |bare|) + bare[|sign|..]
  {
    var bare := sign + digits;
    assert Repeat(' ', 0) == "" && sign + "" + digits == bare && bare[|sign|..] == digits;
    hide Repeat;
  }

  // Strings, characters and the rest

  /** %s prints the string up to its NUL, or "(null)"; a width pads it. */
  lemma Strings(s: Option<string>, w: string)
    requires IsWidth(w)
    ensures
      var text, width := (if s.Some? then CString(s.value) else "(null)"), Value(w, 10);
      && Output("%" + "" + ['s'], [StrArg(s)]) == text
      && Output("%" + w + ['s'], [StrArg(s)]) == Blanks(width - |text|) + text
      && Output("%" + (['-'] + w) + ['s'], [StrArg(s)]) == text + Blanks(width - |text|)
  {
    NotModifiers();
    hide *;
    var args, text := [StrArg(s)], if s.Some? then CString(s.value) else "(null)";
    WidthSpecs(w);
    OneDirective("", 's', args);
    OneDirective(w, 's', args);
    OneDirective(['-'] + w, 's', args);
    StringText(SpecOf(""), s);
    StringText(SpecOf(w), s);
    StringText(SpecOf(['-'] + w), s);
    PaddedField("", text, WidthOf(w));
    assert "" + text == text;
  }

  lemma StringText(p: Spec, s: Option<string>)
    ensures DirectiveText(p, 's', [StrArg(s)]) == Field(p, "", "", if s.Some? then CString(s.value) else "(null)")
  {
    hide Field, CString;
  }

  /** A C string ends before its first NUL. */
  lemma {:induction false} CStringEnds(s: string, rest: string)
    requires '\0' !in s
    ensures CString(s + ['\0'] + rest) == s && CString(s) == s
  {
    var t := s + ['\0'] + rest;
    if s != "" {
      assert s[0] != '\0' && '\0' !in s[1..];
      assert t[1..] == s[1..] + ['\0'] + rest;
      CStringEnds(s[1..], rest);
    }
  }

  /** %c prints the character whose code is the argument's low byte. */
  lemma Characters(n: int)
    requires U32(n) % 256 != 0
    ensures Output("%" + "" + ['c'], [NumArg(n)]) == [(U32(n) % 256) as char]
  {
    hide Output, SpecOf, DirectiveText, U32, AreModifiers;
    LengthSpec("");
    OneDirective("", 'c', [NumArg(n)]);
    CharacterText(SpecOf(""), n);
  }

  lemma CharacterText(p: Spec, n: int)
    requires U32(n) % 256 != 0 && p.width == 0
    ensures DirectiveText(p, 'c', [NumArg(n)]) == [(U32(n) % 256) as char]
  {
    hide Field, U32;
    var text: string := [(U32(n) % 256) as char];
    assert text[0] != '\0' && text[1..] == "" && CString("") == "";
    assert CString(text) == [text[0]] + CString(text[1..]) == text;
    BareField(p, "", "", text);
    assert "" + "" + text == text;
  }

  /** A character that is no conversion prints itself: so does the second % of
      "%%". */
  lemma OtherCharacters(c: char, args: seq<Arg>)
    requires !IsModifier(c) && c !in "dcsoupx"
    ensures Output("%" + "" + [c], args) == [c]
  {
    SpecStart();
    OneDirective("", c, args);
    BareField(SpecOf(""), "", "", [c]);
    hide Output, SpecOf, Field;
    assert "" + "" + [c] == [c];
  }
}
