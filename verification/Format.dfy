/** What printf promises, one directive at a time: the reference against
    which the character-at-a-time code of common/libc/printf/__printf.c is
    proved. */
module Format {
  import opened Numerals
  import opened Words
  import opened Wrappers

  datatype Size = IntSz | LongSz | LlongSz | SizetSz

  datatype Arg = NumArg(n: int) | StrArg(s: Option<string>)

  /** The modifiers of one directive taken together. */
  datatype Spec = Spec(size: Size, width: nat, left: bool, zero: bool, alt: bool)

  predicate IsModifier(c: char) {
    c in "#-lz0123456789"
  }

  predicate AreModifiers(mods: string) {
    forall i :: 0 <= i < |mods| ==> IsModifier(mods[i])
  }

  /** The field width: the decimal number its digits spell. */
  function WidthOf(mods: string): nat {
    if mods == "" then 0
    else
      var c, w := mods[|mods| - 1], WidthOf(mods[..|mods| - 1]);
      if '0' <= c <= '9' then w * 10 + Digit(c) else w
  }

  /** A zero before any other digit of the width asks for zero padding. */
  predicate ZeroPad(mods: string) {
    exists i :: 0 <= i < |mods| && mods[i] == '0' && WidthOf(mods[..i]) == 0
  }

  function SizeOf(mods: string): Size {
    if mods == "" then IntSz
    else
      var c, z := mods[|mods| - 1], SizeOf(mods[..|mods| - 1]);
      if c == 'l' then (if z == LongSz then LlongSz else LongSz) else if c == 'z' then SizetSz else z
  }

  function SpecOf(mods: string): Spec {
    Spec(SizeOf(mods), WidthOf(mods), '-' in mods, ZeroPad(mods), '#' in mods)
  }

  /** The effect of one more modifier character. */
  function Modify(p: Spec, c: char): Spec {
    if c == '#' then p.(alt := true)
    else if c == '-' then p.(left := true)
    else if c == 'l' then p.(size := if p.size == LongSz then LlongSz else LongSz)
    else if c == 'z' then p.(size := SizetSz)
    else if c == '0' then (if p.width > 0 then p.(width := p.width * 10) else p.(zero := true))
    else if '1' <= c <= '9' then p.(width := p.width * 10 + Digit(c))
    else p
  }

  lemma SpecStart()
    ensures SpecOf("") == Spec(IntSz, 0, false, false, false)
  {
  }

  /** Reading the modifiers one by one comes to the same. */
  lemma SpecExtend(mods: string, c: char)
    requires IsModifier(c)
    ensures SpecOf(mods + [c]) == Modify(SpecOf(mods), c)
  {
    var m := mods + [c];
    assert m[..|m| - 1] == mods;
    ZeroExtend(mods, c);
    assert forall d :: d in m <==> d in mods || d == c;
  }

  lemma ZeroExtend(mods: string, c: char)
    ensures ZeroPad(mods + [c]) <==> ZeroPad(mods) || (c == '0' && WidthOf(mods) == 0)
  {
    var m := mods + [c];
    assert forall i :: 0 <= i <= |mods| ==> m[..i] == mods[..i];
    assert mods[..|mods|] == mods;
    if i :| 0 <= i < |mods| && mods[i] == '0' && WidthOf(mods[..i]) == 0 {
      assert m[i] == '0' && WidthOf(m[..i]) == 0;
    }
    if c == '0' && WidthOf(mods) == 0 {
      assert m[|mods|] == '0' && WidthOf(m[..|mods|]) == 0;
    }
    if i :| 0 <= i < |m| && m[i] == '0' && WidthOf(m[..i]) == 0 {
      assert i < |mods| ==> mods[i] == '0' && WidthOf(mods[..i]) == 0;
    }
  }

  // Fields

  function Repeat(c: char, n: nat): (s: string)
    ensures |s| == n && forall i :: 0 <= i < n ==> s[i] == c
  {
    if n == 0 then "" else Repeat(c, n - 1) + [c]
  }

  function FillChar(p: Spec): char {
    if p.zero then '0' else ' '
  }

  /** A field at least as wide as asked for. On the left, blanks go before
      the prefixes and zeros after them. */
  function Field(p: Spec, sign: string, basePrefix: string, stuff: string): (s: string)
    ensures |s| == if p.width > |sign| + |basePrefix| + |stuff| then p.width else |sign| + |basePrefix| + |stuff|
  {
    var n := |sign| + |basePrefix| + |stuff|;
    var pad := Repeat(FillChar(p), if p.width > n then p.width - n else 0);
    if p.left then sign + basePrefix + stuff + pad
    else if p.zero then sign + basePrefix + pad + stuff
    else pad + sign + basePrefix + stuff
  }

  predicate IsNumeric(c: char) {
    c in "doupx"
  }

  function BaseOf(c: char): int {
    if c == 'd' || c == 'u' then 10 else if c == 'o' then 8 else 16
  }

  function NumOf(args: seq<Arg>): int {
    if args != [] && args[0].NumArg? then args[0].n else 0
  }

  /** The argument as the type the directive names: 32 bits wide except for
      long long. */
  function Fetched(p: Spec, c: char, args: seq<Arg>): (n: int)
    ensures c == 'd' ==> -0x8000_0000_0000_0000 <= n < 0x8000_0000_0000_0000
    ensures c != 'd' ==> 0 <= n < 0x1_0000_0000_0000_0000
  {
    var v := NumOf(args);
    if c == 'd' then (if p.size == LlongSz then S64(U64(v)) else S32(U32(v)))
    else if c == 'p' then U32(v)
    else if p.size == LlongSz then U64(v)
    else U32(v)
  }

  function Abs(n: int): nat {
    if n < 0 then -n else n
  }

  function NumberField(p: Spec, c: char, args: seq<Arg>): string {
    var n, base := Fetched(p, c, args), BaseOf(c);
    var prefixed := p.alt || c == 'p';
    Field(p, if n < 0 then "-" else "",
          if prefixed && base == 16 then "0x" else if prefixed && base == 8 then "0" else "",
          Numeral(Abs(n), base))
  }

  /** The text up to the first NUL. */
  function CString(s: string): string {
    if s == "" || s[0] == '\0' then "" else [s[0]] + CString(s[1..])
  }

  function StrOf(args: seq<Arg>): string {
    if args != [] && args[0].StrArg? && args[0].s.Some? then CString(args[0].s.value) else "(null)"
  }

  /** A NUL character prints as nothing. */
  function CharOf(args: seq<Arg>): string {
    CString([(U32(NumOf(args)) % 256) as char])
  }

  function Rest(args: seq<Arg>): seq<Arg> {
    if args == [] then [] else args[1..]
  }

  /** The text of one directive. A character that is no directive prints as
      itself. */
  function DirectiveText(p: Spec, c: char, args: seq<Arg>): string {
    if IsNumeric(c) then NumberField(p, c, args)
    else if c == 's' then Field(p, "", "", StrOf(args))
    else if c == 'c' then Field(p, "", "", CharOf(args))
    else Field(p, "", "", [c])
  }

  function DirectiveRest(c: char, args: seq<Arg>): seq<Arg> {
    if IsNumeric(c) || c == 's' || c == 'c' then Rest(args) else args
  }

  /** How many modifiers a directive starts with. */
  function ModLen(fmt: string): (k: nat)
    ensures k <= |fmt| && (forall i :: 0 <= i < k ==> IsModifier(fmt[i])) && (k < |fmt| ==> !IsModifier(fmt[k]))
  {
    if fmt == "" || !IsModifier(fmt[0]) then 0 else 1 + ModLen(fmt[1..])
  }

  lemma {:induction false} ModLenIs(fmt: string, k: nat)
    requires k < |fmt| && (forall i :: 0 <= i < k ==> IsModifier(fmt[i])) && !IsModifier(fmt[k])
    ensures ModLen(fmt) == k
  {
    if k > 0 {
      ModLenIs(fmt[1..], k - 1);
    }
  }

  lemma {:induction false} ModLenAll(fmt: string)
    requires forall i :: 0 <= i < |fmt| ==> IsModifier(fmt[i])
    ensures ModLen(fmt) == |fmt|
  {
    if fmt != "" {
      ModLenAll(fmt[1..]);
    }
  }

  /** The whole output. */
  function Output(fmt: string, args: seq<Arg>): string
    decreases |fmt|
  {
    if fmt == "" then ""
    else if fmt[0] != '%' then [fmt[0]] + Output(fmt[1..], args)
    else
      var k := ModLen(fmt[1..]);
      if 1 + k == |fmt| then ""
      else
        var c := fmt[1 + k];
        DirectiveText(SpecOf(fmt[1..1 + k]), c, args) + Output(fmt[k + 2..], DirectiveRest(c, args))
  }
}
