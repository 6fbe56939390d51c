/** common/libc/printf/__printf.c and snprintf.c: a state machine fed one
    format character at a time, writing through snprintf's buffer. */
module Printf {
  import opened Format
  import opened Numerals
  import opened Words

  const NUMBER_BUF_SIZE := 23

  function Min(a: nat, b: nat): nat {
    if a < b then a else b
  }

  /** snprintf's context. `sent` is everything ever sent, `orig` what the
      buffer held before. */
  class Snp {
    const buf: array<char>
    const buflen: nat
    var bufpos: nat
    ghost var sent: string
    ghost const orig: seq<char>

    /** The buffer holds as much of what was sent as fits, and nothing beyond
        has been touched. */
    ghost predicate Valid()
      reads this, buf
    {
      && |orig| == buf.Length && buflen <= buf.Length
      && bufpos == Min(|sent|, buflen)
      && buf[..] == sent[..bufpos] + orig[bufpos..]
    }

    constructor (b: array<char>, n: nat)
      requires n <= b.Length
      ensures Valid() && buf == b && buflen == n && sent == "" && orig == b[..]
    {
      buf, buflen, bufpos, sent, orig := b, n, 0, "", b[..];
    }

    /** __snprintf_send(). */
    method Send(data: string)
      requires Valid()
      modifies this, buf
      ensures Valid() && sent == old(sent) + data
    {
      var i := 0;
      while i < |data|
        invariant i <= |data| && Valid() && sent == old(sent) + data[..i]
      {
        ghost var before := buf[..];
        if bufpos < buflen {
          buf[bufpos] := data[i];
          bufpos := bufpos + 1;
          assert buf[..] == before[bufpos - 1 := data[i]];
        }
        sent := sent + [data[i]];
        i := i + 1;
        assert data[..i] == data[..i - 1] + [data[i - 1]];
      }
      assert data[..i] == data;
    }
  }

  /** The digits still to come when xnum is left. */
  ghost function Head(xnum: nat, base: int): string
    requires IsBase(base)
  {
    if xnum == 0 then "" else Numeral(xnum, base)
  }

  lemma HeadStep(xnum: nat, base: int)
    requires IsBase(base)
    ensures 0 <= xnum / base && 0 <= xnum % base < 16
    ensures Numeral(xnum, base) == Head(xnum / base, base) + [Glyph(xnum % base)]
    ensures xnum > 0 ==> xnum / base < xnum
  {
    hide Glyph;
    if base == 8 {
      assert xnum < 8 ==> xnum / 8 == 0 && xnum % 8 == xnum;
    } else if base == 10 {
      assert xnum < 10 ==> xnum / 10 == 0 && xnum % 10 == xnum;
    } else {
      assert xnum < 16 ==> xnum / 16 == 0 && xnum % 16 == xnum;
    }
  }

  /** Storing a character in front of the text written so far. */
  lemma StoreFront(s: seq<char>, x: nat, end: nat, c: char)
    requires 0 < x <= end <= |s|
    ensures s[x - 1 := c][x - 1..end] == [c] + s[x..end]
  {
  }

  /** The conversion loop of __pf_printnum(), right to left in its buffer;
      returns where the text starts. */
  method Digits(buf: array<char>, num: nat, base: int) returns (x: nat)
    requires buf.Length == NUMBER_BUF_SIZE && num < 0x1_0000_0000_0000_0000 && IsBase(base)
    modifies buf
    ensures x < NUMBER_BUF_SIZE && buf[x..NUMBER_BUF_SIZE - 1] == Numeral(num, base)
    ensures buf[NUMBER_BUF_SIZE - 1] == '\0'
  {
    hide Numeral, Glyph;
    NumeralFits(num, base);
    var end := NUMBER_BUF_SIZE - 1;
    buf[end] := '\0';
    x := end;
    var xnum := num;
    var first := true;
    while first || xnum > 0
      invariant 0 <= x <= end && buf[end] == '\0' && xnum >= 0
      invariant Numeral(num, base) == (if first then Numeral(xnum, base) else Head(xnum, base)) + buf[x..end]
      decreases first, xnum
    {
      HeadStep(xnum, base);
      ghost var s := buf[..];
      assert buf[x..end] == s[x..end];
      StoreFront(s, x, end, Glyph(xnum % base));
      x := x - 1;
      buf[x] := Glyph(xnum % base);
      assert buf[..] == s[x := Glyph(xnum % base)];
      xnum := xnum / base;
      first := false;
    }
  }

  ghost function PadIf(c: char, spc: nat, here: bool): string {
    if spc > 0 && here then Repeat(c, spc) else ""
  }

  /** The pieces __pf_printstuff() sends make up the field. */
  lemma FieldPieces(start: string, p: Spec, spc: nat, prefix: string, prefix2: string, stuff: string)
    requires spc == if p.width > |prefix| + |prefix2| + |stuff| then p.width - |prefix| - |prefix2| - |stuff| else 0
    ensures start + PadIf(FillChar(p), spc, !p.left && !p.zero) + prefix + prefix2
            + PadIf(FillChar(p), spc, !p.left && p.zero) + stuff + PadIf(FillChar(p), spc, p.left)
         == start + Format.Field(p, prefix, prefix2, stuff)
  {
    var pad := Repeat(FillChar(p), spc);
    assert spc == 0 ==> pad == "";
    hide Repeat;
    if p.left {
      assert start + "" + prefix + prefix2 + "" + stuff + pad == start + (prefix + prefix2 + stuff + pad);
    } else if p.zero {
      assert start + "" + prefix + prefix2 + pad + stuff + "" == start + (prefix + prefix2 + pad + stuff);
    } else {
      assert start + pad + prefix + prefix2 + "" + stuff + "" == start + (pad + prefix + prefix2 + stuff);
    }
  }

  /** The printf state, struct PF. */
  class Pf {
    const sink: Snp
    var charcount: int
    var inPct: bool
    var size: Size
    var num: nat
    var sign: int
    var spacing: nat
    var rightspc: bool
    var fillchar: char
    var base: int
    var baseprefix: bool
    var altformat: bool
    var args: seq<Arg>

    ghost predicate Valid()
      reads this, sink, sink.buf
    {
      sink.Valid() && (fillchar == ' ' || fillchar == '0')
    }

    /** The modifiers seen so far. */
    ghost function Mods(): Spec
      reads this
    {
      Spec(size, spacing, rightspc, fillchar == '0', altformat)
    }

    /** No number has been fetched for this directive yet. */
    ghost predicate Plain()
      reads this
    {
      sign == 0 && !baseprefix
    }

    constructor (snp: Snp, ap: seq<Arg>)
      requires snp.Valid()
      ensures Valid() && Plain() && !inPct && Mods() == SpecOf("")
      ensures sink == snp && args == ap && charcount == 0
    {
      sink, args, charcount := snp, ap, 0;
      inPct, size, num, sign, spacing := false, IntSz, 0, 0, 0;
      rightspc, fillchar, base, baseprefix, altformat := false, ' ', 0, false, false;
      new;
      SpecStart();
    }

    /** __pf_print(). */
    method Print(txt: string)
      requires Valid()
      modifies `charcount, sink, sink.buf
      ensures Valid() && sink.sent == old(sink.sent) + txt && charcount == old(charcount) + |txt|
    {
      sink.Send(txt);
      charcount := charcount + |txt|;
    }

    /** __pf_fill(). */
    method Fill(spc: nat)
      requires Valid()
      modifies `charcount, sink, sink.buf
      ensures Valid() && sink.sent == old(sink.sent) + Repeat(fillchar, spc) && charcount == old(charcount) + spc
    {
      var i := 0;
      while i < spc
        invariant i <= spc && Valid()
        invariant sink.sent == old(sink.sent) + Repeat(fillchar, i) && charcount == old(charcount) + i
      {
        Print([fillchar]);
        i := i + 1;
      }
    }

    method FillIf(spc: nat, here: bool)
      requires Valid()
      modifies `charcount, sink, sink.buf
      ensures Valid() && sink.sent == old(sink.sent) + PadIf(fillchar, spc, here)
      ensures charcount == old(charcount) + |PadIf(fillchar, spc, here)|
    {
      if spc > 0 && here {
        Fill(spc);
      }
    }

    /** __pf_printstuff(). */
    method PrintStuff(prefix: string, prefix2: string, stuff: string)
      requires Valid()
      modifies `charcount, sink, sink.buf
      ensures Valid() && sink.sent == old(sink.sent) + Format.Field(Mods(), prefix, prefix2, stuff)
      ensures charcount == old(charcount) + |Format.Field(Mods(), prefix, prefix2, stuff)|
    {
      hide Repeat, Format.Field, PadIf;
      var len := |prefix| + |prefix2| + |stuff|;
      var spc := if spacing > len then spacing - len else 0;
      ghost var start := sink.sent;
      FillIf(spc, !rightspc && fillchar != '0');
      Print(prefix);
      Print(prefix2);
      FillIf(spc, !rightspc && fillchar == '0');
      Print(stuff);
      FillIf(spc, rightspc);
      FieldPieces(start, Mods(), spc, prefix, prefix2, stuff);
    }

    /** __pf_endfield(). */
    method EndField()
      requires Valid()
      modifies `inPct, `size, `num, `sign, `spacing, `rightspc, `fillchar, `base, `baseprefix, `altformat
      ensures Valid() && Plain() && !inPct && Mods() == SpecOf("")
    {
      inPct, size, num, sign, spacing := false, IntSz, 0, 0, 0;
      rightspc, fillchar, base, baseprefix, altformat := false, ' ', 0, false, false;
      SpecStart();
    }

    /** __pf_modifier(). */
    method Modifier(ch: char)
      requires Valid() && IsModifier(ch)
      modifies `size, `spacing, `rightspc, `fillchar, `altformat
      ensures Valid() && Mods() == Modify(old(Mods()), ch)
    {
      if ch == '#' {
        altformat := true;
      } else if ch == '-' {
        rightspc := true;
      } else if ch == 'l' {
        size := if size == LongSz then LlongSz else LongSz;
      } else if ch == 'z' {
        size := SizetSz;
      } else if ch == '0' {
        if spacing > 0 {
          spacing := spacing * 10;
        } else {
          fillchar := '0';
        }
      } else {
        spacing := spacing * 10 + (ch as int - '0' as int);
      }
    }

    /** __pf_getnum(): the argument by its type; a negative one becomes its
        magnitude and a sign. */
    method GetNum(ch: char)
      requires sign == 0
      modifies `num, `sign, `args
      ensures num == Abs(Fetched(Mods(), ch, old(args))) && (sign != 0 <==> Fetched(Mods(), ch, old(args)) < 0)
      ensures args == Rest(old(args)) && num < 0x1_0000_0000_0000_0000
    {
      var v := NumOf(args);
      if ch == 'p' {
        num := U32(v);
      } else if ch == 'd' {
        var signednum := if size == LlongSz then S64(U64(v)) else S32(U32(v));
        if signednum < 0 {
          sign := -1;
          num := U64(-signednum);
        } else {
          num := signednum;
        }
      } else {
        num := if size == LlongSz then U64(v) else U32(v);
      }
      args := Rest(args);
    }

    /** __pf_setbase(). */
    method SetBase(ch: char)
      requires IsNumeric(ch) && !baseprefix
      modifies `base, `baseprefix
      ensures base == BaseOf(ch) && IsBase(base) && (baseprefix <==> altformat || ch == 'p')
      ensures base == if ch == 'd' || ch == 'u' then 10 else if ch == 'o' then 8 else 16
    {
      if ch == 'd' || ch == 'u' {
        base := 10;
      } else if ch == 'x' || ch == 'p' {
        base := 16;
      } else {
        base := 8;
      }
      if altformat || ch == 'p' {
        baseprefix := true;
      }
    }

    /** __pf_printnum(). */
    method PrintNum()
      requires Valid() && IsBase(base) && num < 0x1_0000_0000_0000_0000
      modifies `charcount, sink, sink.buf
      ensures Valid() && sink.sent == old(sink.sent) + NumText(Mods(), sign, baseprefix, base, num)
      ensures charcount == old(charcount) + |NumText(Mods(), sign, baseprefix, base, num)|
    {
      hide Numeral, Format.Field;
      var buf := new char[NUMBER_BUF_SIZE];
      var x := Digits(buf, num, base);
      var bprefix := if baseprefix && base == 16 then "0x" else if baseprefix && base == 8 then "0" else "";
      var sprefix := if sign != 0 then "-" else "";
      PrintStuff(sprefix, bprefix, buf[x..NUMBER_BUF_SIZE - 1]);
    }

    /** The integer directives of __pf_send(). */
    method SendNumber(ch: char)
      requires Valid() && Plain() && IsNumeric(ch)
      modifies this, sink, sink.buf
      ensures Valid() && Plain() && !inPct && Mods() == SpecOf("") && args == DirectiveRest(ch, old(args))
      ensures sink.sent == old(sink.sent) + DirectiveText(old(Mods()), ch, old(args))
      ensures charcount == old(charcount) + |DirectiveText(old(Mods()), ch, old(args))|
    {
      hide Numeral, Format.Field, SpecOf, Fetched, Rest;
      GetNum(ch);
      SetBase(ch);
      PrintNum();
      EndField();
    }

    /** The other directives. */
    method SendText(ch: char)
      requires Valid() && Plain() && !IsNumeric(ch)
      modifies this, sink, sink.buf
      ensures Valid() && Plain() && !inPct && Mods() == SpecOf("") && args == DirectiveRest(ch, old(args))
      ensures sink.sent == old(sink.sent) + DirectiveText(old(Mods()), ch, old(args))
      ensures charcount == old(charcount) + |DirectiveText(old(Mods()), ch, old(args))|
    {
      hide Format.Field, SpecOf, StrOf, CharOf, Rest;
      if ch == 's' {
        var str := StrOf(args);
        args := Rest(args);
        PrintStuff("", "", str);
      } else if ch == 'c' {
        var x := CharOf(args);
        args := Rest(args);
        PrintStuff("", "", x);
      } else {
        PrintStuff("", "", [ch]);
      }
      EndField();
    }

    /** __pf_send(): one character of the format. */
    method SendChar(ch: char)
      requires Valid() && Plain() && (!inPct ==> Mods() == SpecOf(""))
      modifies this, sink, sink.buf
      ensures Valid() && Plain() && (!inPct ==> Mods() == SpecOf(""))
      ensures SentChar(old(inPct), old(Mods()), old(args), old(sink.sent), old(charcount), ch,
                       inPct, Mods(), args, sink.sent, charcount)
    {
      hide SpecOf, DirectiveText, DirectiveRest, Modify;
      if !inPct && ch != '%' {
        Print([ch]);
      } else if !inPct {
        inPct := true;
      } else if IsModifier(ch) {
        Modifier(ch);
      } else if IsNumeric(ch) {
        SendNumber(ch);
      } else {
        SendText(ch);
      }
    }

    /** __vprintf(): the characters sent are the output of the format, and
        their number is returned. */
    method Vprintf(fmt: string) returns (chars: int)
      requires Valid() && Plain() && !inPct && Mods() == SpecOf("") && charcount == 0
      modifies this, sink, sink.buf
      ensures sink.Valid() && sink.sent == old(sink.sent) + Output(fmt, old(args)) && chars == |Output(fmt, old(args))|
    {
      hide SpecOf, Output, SentChar, Progress;
      ghost var sent, total := sink.sent, Output(fmt, args);
      ProgressStart(fmt, args, Mods());
      ghost var done := "";
      ghost var from := 0;
      var i := 0;
      while i < |fmt|
        invariant i <= |fmt| && Valid() && Plain() && (!inPct ==> Mods() == SpecOf(""))
        invariant sink.sent == sent + done && charcount == |done|
        invariant Progress(total, done, fmt, i, from, inPct, Mods(), args)
      {
        ghost var inPct0, mods0, args0, sent0, count0 := inPct, Mods(), args, sink.sent, charcount;
        SendChar(fmt[i]);
        done, from := ProgressStep(total, sent, done, fmt, i, from, inPct0, mods0, args0, count0,
                                   inPct, Mods(), args, sink.sent, charcount);
        i := i + 1;
      }
      ProgressEnd(total, done, fmt, from, inPct, Mods(), args);
      chars := charcount;
    }
  }

  /** The text __pf_printnum() sends. */
  ghost function NumText(p: Spec, sign: int, baseprefix: bool, base: int, num: nat): string
    requires IsBase(base)
  {
    Format.Field(p, if sign != 0 then "-" else "",
                 if baseprefix && base == 16 then "0x" else if baseprefix && base == 8 then "0" else "",
                 Numeral(num, base))
  }

  /** What one character does to the printf state. */
  ghost predicate SentChar(inPct: bool, mods: Spec, args: seq<Arg>, sent: string, count: int, ch: char,
                           inPct': bool, mods': Spec, args': seq<Arg>, sent': string, count': int)
  {
    if !inPct && ch != '%' then
      !inPct' && mods' == mods && args' == args && sent' == sent + [ch] && count' == count + 1
    else if !inPct then
      inPct' && mods' == mods && args' == args && sent' == sent && count' == count
    else if IsModifier(ch) then
      inPct' && mods' == Modify(mods, ch) && args' == args && sent' == sent && count' == count
    else
      var text := DirectiveText(mods, ch, args);
      !inPct' && mods' == SpecOf("") && args' == DirectiveRest(ch, args) && sent' == sent + text
      && count' == count + |text|
  }

  /** The first i characters have been dealt with: what has been sent and what
      is left of the format make up the whole output. Inside a directive, it
      began at `from`. */
  ghost predicate Progress(total: string, done: string, fmt: string, i: nat, from: nat,
                           inPct: bool, mods: Spec, args: seq<Arg>)
    requires i <= |fmt|
  {
    if !inPct then total == done + Output(fmt[i..], args)
    else
      && from < i && fmt[from] == '%' && total == done + Output(fmt[from..], args)
      && (forall k :: from < k < i ==> IsModifier(fmt[k])) && mods == SpecOf(fmt[from + 1..i])
  }

  lemma ProgressStart(fmt: string, args: seq<Arg>, mods: Spec)
    ensures Progress(Output(fmt, args), "", fmt, 0, 0, false, mods, args)
  {
    assert fmt[0..] == fmt;
  }

  lemma ProgressStep(total: string, sent: string, done: string, fmt: string, i: nat, from: nat,
                     inPct: bool, mods: Spec, args: seq<Arg>, count: int,
                     inPct': bool, mods': Spec, args': seq<Arg>, sent': string, count': int)
    returns (done': string, from': nat)
    requires i < |fmt| && Progress(total, done, fmt, i, from, inPct, mods, args) && count == |done|
    requires SentChar(inPct, mods, args, sent + done, count, fmt[i], inPct', mods', args', sent', count')
    requires !inPct ==> mods == SpecOf("")
    ensures sent' == sent + done' && count' == |done'|
    ensures Progress(total, done', fmt, i + 1, from', inPct', mods', args')
  {
    hide SpecOf, DirectiveText, DirectiveRest, Modify, Output;
    done', from' := done, from;
    if !inPct && fmt[i] != '%' {
      done' := done + [fmt[i]];
      StepPlain(done, fmt, i, args);
      assert sent + done + [fmt[i]] == sent + done';
    } else if !inPct {
      from' := i;
      assert fmt[i + 1..i + 1] == "";
    } else if IsModifier(fmt[i]) {
      SpecExtend(fmt[from + 1..i], fmt[i]);
      assert fmt[from + 1..i + 1] == fmt[from + 1..i] + [fmt[i]];
    } else {
      var text := DirectiveText(mods, fmt[i], args);
      done' := done + text;
      StepDirective(done, fmt, i, from, args);
      assert sent + done + text == sent + done';
    }
  }

  lemma StepPlain(done: string, fmt: string, i: nat, args: seq<Arg>)
    requires i < |fmt| && fmt[i] != '%'
    ensures done + Output(fmt[i..], args) == done + [fmt[i]] + Output(fmt[i + 1..], args)
  {
    assert fmt[i..][1..] == fmt[i + 1..];
  }

  lemma StepDirective(done: string, fmt: string, i: nat, from: nat, args: seq<Arg>)
    requires from < i < |fmt| && fmt[from] == '%' && !IsModifier(fmt[i])
    requires forall k :: from < k < i ==> IsModifier(fmt[k])
    ensures done + Output(fmt[from..], args)
         == done + DirectiveText(SpecOf(fmt[from + 1..i]), fmt[i], args) + Output(fmt[i + 1..], DirectiveRest(fmt[i], args))
  {
    hide SpecOf, DirectiveText, DirectiveRest, Output, ModLen;
    var f, k := fmt[from..], i - from - 1;
    assert forall j :: 0 <= j < k ==> f[1..][j] == fmt[from + 1 + j];
    ModLenIs(f[1..], k);
    OutputDirective(f, k, args);
    assert f[1..1 + k] == fmt[from + 1..i] && f[k + 2..] == fmt[i + 1..];
    var text, more := DirectiveText(SpecOf(f[1..1 + k]), fmt[i], args), Output(f[k + 2..], DirectiveRest(fmt[i], args));
    assert done + (text + more) == done + text + more;
  }

  lemma OutputDirective(f: string, k: nat, args: seq<Arg>)
    requires 1 + k < |f| && f[0] == '%' && ModLen(f[1..]) == k
    ensures Output(f, args)
         == DirectiveText(SpecOf(f[1..1 + k]), f[1 + k], args) + Output(f[k + 2..], DirectiveRest(f[1 + k], args))
  {
    hide SpecOf, DirectiveText, DirectiveRest, ModLen;
  }

  lemma ProgressEnd(total: string, done: string, fmt: string, from: nat, inPct: bool, mods: Spec, args: seq<Arg>)
    requires Progress(total, done, fmt, |fmt|, from, inPct, mods, args)
    ensures done == total
  {
    assert fmt[|fmt|..] == "";
    if inPct {
      var f := fmt[from..];
      assert forall j :: 0 <= j < |f| - 1 ==> f[1..][j] == fmt[from + 1 + j];
      ModLenAll(f[1..]);
    }
  }

  lemma TerminatorFits(out: string, orig: seq<char>, m: nat)
    requires m <= |out| && m < |orig|
    ensures (out[..m] + orig[m..])[m := '\0'] == out[..m] + ['\0'] + orig[m + 1..]
  {
  }

  /** vsnprintf(): the buffer holds the first len - 1 characters of the output
      and a NUL, the rest of it is untouched, and the length of the whole
      output is returned. */
  method Vsnprintf(buf: array<char>, len: nat, fmt: string, ap: seq<Arg>) returns (chars: int)
    requires len <= buf.Length
    modifies buf
    ensures chars == |Output(fmt, ap)|
    ensures len == 0 ==> buf[..] == old(buf[..])
    ensures len > 0 ==>
              var m := Min(|Output(fmt, ap)|, len - 1);
              buf[..] == Output(fmt, ap)[..m] + ['\0'] + old(buf[..])[m + 1..]
  {
    hide Output;
    var snp := new Snp(buf, if len == 0 then 0 else len - 1);
    var pf := new Pf(snp, ap);
    chars := pf.Vprintf(fmt);
    ghost var out := Output(fmt, ap);
    assert snp.sent == out;
    ghost var b := buf[..];
    if len > 0 {
      TerminatorFits(out, old(buf[..]), snp.bufpos);
      buf[snp.bufpos] := '\0';
      assert buf[..] == b[snp.bufpos := '\0'];
    } else {
      assert out[..0] + old(buf[..])[0..] == old(buf[..]);
    }
  }
}
