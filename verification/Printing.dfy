/** The interpreter of lib/std/io.c, against the rendering of the token list. */
module Printing {
  import opened Words
  import opened Uart
  import opened Radix
  import opened Formats

  /** A variable argument: a 32-bit word, or a pointer to a string. */
  datatype Arg = Word(w: word) | Str(s: CString)

  /** A word read as a signed number. */
  function Signed(w: word): int
  {
    if w < 0x8000_0000 then w else w - WORD_LIMIT
  }

  /** What a conversion takes from the arguments: -2^31 has no negation in 32 bits. */
  predicate ArgFits(conv: char, a: Arg)
  {
    if conv == 's' then a.Str?
    else a.Word? && ((conv == 'd' || conv == 'i') ==> a.w != 0x8000_0000)
  }

  predicate TakesArg(t: Token)
  {
    t.Conversion? && t.conv != '%'
  }

  predicate HeadFits(t: Token, args: seq<Arg>)
  {
    TakesArg(t) ==> args != [] && ArgFits(t.conv, args[0])
  }

  function ArgsAfter(t: Token, args: seq<Arg>): seq<Arg>
    requires HeadFits(t, args)
  {
    if TakesArg(t) then args[1..] else args
  }

  /** The caller passes an argument of the right kind for each conversion, in order. */
  predicate ArgsFit(ts: seq<Token>, args: seq<Arg>)
  {
    ts == [] || (HeadFits(ts[0], args) && ArgsFit(ts[1..], ArgsAfter(ts[0], args)))
  }

  function Repeat(c: char, n: nat): (s: seq<char>)
    ensures |s| == n
  {
    seq(n, (i: nat) => c)
  }

  function Max(a: int, b: int): int
  {
    if a < b then b else a
  }

  /** Right-aligned text in a field. */
  function Field(text: seq<char>, width: nat, padding: char): seq<char>
  {
    Repeat(padding, Max(|text|, width) - |text|) + text
  }

  /** The field that is left after the sign: a difference beyond 31 bits counts as negative. */
  function SignedWidth(width: word, offset: nat): nat
    requires offset <= 1
  {
    Max(Signed((width - offset) % WORD_LIMIT), 0)
  }

  /** The sign comes before the padding. */
  function SignedField(n: int, width: word, padding: char): seq<char>
  {
    if n < 0 then "-" + Field(Digits(-n, 10), SignedWidth(width, 1), padding)
    else Field(Digits(n, 10), SignedWidth(width, 0), padding)
  }

  /** The output of a conversion that takes an argument. */
  function RenderArg(flags: seq<char>, conv: char, a: Arg): seq<char>
    requires AllowedConversion(flags, conv) && conv != '%' && ArgFits(conv, a)
  {
    var width, padding := WidthOf(flags), PaddingOf(flags, ' ');
    if conv == 'c' then [(a.w % 256) as char]
    else if conv == 's' then Field(a.s, width, padding)
    else if conv == 'x' then Field(Digits(a.w, 16), width, padding)
    else if conv == 'u' then Field(Digits(a.w, 10), width, padding)
    else if conv == 'p' then "0x" + Field(Digits(a.w, 16), width, padding)
    else SignedField(Signed(a.w), width, padding)
  }

  /** The output of one token. */
  function Printed(t: Token, args: seq<Arg>): seq<char>
    requires TokenOk(t) && HeadFits(t, args)
  {
    if t.Literal? then [t.c]
    else if t.conv == '%' then ['%']
    else RenderArg(t.flags, t.conv, args[0])
  }

  /** The output of a token list. */
  function Render(ts: seq<Token>, args: seq<Arg>): seq<char>
    requires TokensOk(ts) && ArgsFit(ts, args)
  {
    if ts == [] then []
    else
      assert TokenOk(ts[0]);
      Printed(ts[0], args) + Render(ts[1..], ArgsAfter(ts[0], args))
  }

  // ---- Lengths ----

  /** The text of the number that a numeric conversion prints, without the prefix of a pointer. */
  function NumberText(conv: char, w: word): seq<char>
  {
    if conv == 'x' || conv == 'p' then Digits(w, 16)
    else if conv == 'u' then Digits(w, 10)
    else SignedDigits(Signed(w), 10)
  }

  lemma SignedWidthValue(width: word, offset: nat)
    requires offset <= 1
    ensures SignedWidth(width, offset) == if 0 <= width - offset < 0x8000_0000 then width - offset else 0
  {
    if width < offset {
      assert (width - offset) % WORD_LIMIT == WORD_LIMIT - 1;
    }
  }

  lemma SignedFieldLength(flags: seq<char>, conv: char, w: word)
    requires (conv == 'd' || conv == 'i') && w != 0x8000_0000
    ensures var length := Max(|SignedDigits(Signed(w), 10)|, WidthOf(flags));
            var offset := if Signed(w) < 0 then 1 else 0;
            |RenderArg(flags, conv, Word(w))| == length <==> WidthOf(flags) - offset < 0x8000_0000
  {
    var n := Signed(w);
    var m: nat := if n < 0 then -n else n;
    WordFits(m);
    SignedWidthValue(WidthOf(flags), if n < 0 then 1 else 0);
  }

  /**
   * A numeric field has the length of its number or the width, whichever is greater, two more for a
   * pointer; a signed field has it exactly when the width without the sign is below 2^31.
   */
  lemma FieldLength(flags: seq<char>, conv: char, w: word)
    requires WideConversion(conv) && conv != 's' && ArgFits(conv, Word(w))
    ensures var length := Max(|NumberText(conv, w)|, WidthOf(flags));
            var offset := if Signed(w) < 0 then 1 else 0;
            var r := |RenderArg(flags, conv, Word(w))|;
            && (conv == 'x' || conv == 'u' ==> r == length)
            && (conv == 'p' ==> r == length + 2)
            && (conv == 'd' || conv == 'i' ==> (r == length <==> WidthOf(flags) - offset < 0x8000_0000))
  {
    if conv == 'd' || conv == 'i' {
      SignedFieldLength(flags, conv, w);
    }
  }

  // ---- What is printed, by positions ----

  /** What stands before the padding: the prefix of a pointer, or the sign of a negative number. */
  function Prefix(conv: char, a: Arg): seq<char>
  {
    if conv == 'p' then "0x"
    else if (conv == 'd' || conv == 'i') && a.Word? && a.w >= 0x8000_0000 then "-"
    else ""
  }

  /** The number that a conversion shows: the word, or its magnitude as a signed number. */
  function Magnitude(conv: char, w: word): nat
  {
    if (conv == 'd' || conv == 'i') && w >= 0x8000_0000 then 0x1_0000_0000 - w else w
  }

  /** What stands after the padding: the string, or the numeral. */
  function Shown(conv: char, a: Arg): seq<char>
  {
    match a
    case Str(s) => s
    case Word(w) => Digits(Magnitude(conv, w), if conv == 'x' || conv == 'p' then 16 else 10)
  }

  lemma FieldPlaces(pre: seq<char>, text: seq<char>, width: nat, padding: char, r: seq<char>)
    requires r == pre + Field(text, width, padding)
    ensures |pre| + |text| <= |r| && r[..|pre|] == pre && r[|r| - |text|..] == text
    ensures forall i :: |pre| <= i < |r| - |text| ==> r[i] == padding
  {
  }

  lemma SignedForm(w: word, width: word, padding: char)
    requires w != 0x8000_0000
    ensures SignedField(Signed(w), width, padding)
         == Prefix('d', Word(w)) + Field(Shown('d', Word(w)), SignedWidth(width, |Prefix('d', Word(w))|), padding)
  {
  }

  lemma FieldForm(flags: seq<char>, conv: char, a: Arg) returns (width: nat)
    requires WideConversion(conv) && ArgFits(conv, a)
    ensures RenderArg(flags, conv, a) == Prefix(conv, a) + Field(Shown(conv, a), width, PaddingOf(flags, ' '))
  {
    width := WidthOf(flags);
    if conv == 'd' || conv == 'i' {
      SignedForm(a.w, width, PaddingOf(flags, ' '));
      width := SignedWidth(width, |Prefix(conv, a)|);
    }
  }

  /**
   * The output of a wide conversion, from left to right: the prefix or sign, then padding only, then the text.
   * The padding is '0' exactly when the digits start with '0', and a space otherwise.
   */
  lemma OutputPlaces(flags: seq<char>, conv: char, a: Arg)
    requires conv in "xdiups" && ArgFits(conv, a)
    ensures AllowedConversion(flags, conv)
    ensures var r, pre, text := RenderArg(flags, conv, a), Prefix(conv, a), Shown(conv, a);
            && |pre| + |text| <= |r| && r[..|pre|] == pre && r[|r| - |text|..] == text
            && forall i :: |pre| <= i < |r| - |text| ==>
                 r[i] == if flags != [] && flags[0] == '0' then '0' else ' '
  {
    LetterIsWide(conv);
    var width := FieldForm(flags, conv, a);
    FieldPlaces(Prefix(conv, a), Shown(conv, a), width, PaddingOf(flags, ' '), RenderArg(flags, conv, a));
  }

  lemma LetterIsWide(c: char)
    ensures c in "xdiups" <==> WideConversion(c)
  {
  }

  /** The numeral that ends the output of a numeric conversion parses back to the number, and does not look signed. */
  lemma OutputReadsBack(flags: seq<char>, conv: char, w: word)
    requires conv in "xdiup" && ArgFits(conv, Word(w))
    ensures var text := Shown(conv, Word(w));
            && Value(text, if conv == 'x' || conv == 'p' then 16 else 10) == Magnitude(conv, w)
            && text != [] && (text[0] == '0' <==> w == 0) && text[0] != '-'
  {
    DigitsRoundTrip(Magnitude(conv, w), if conv == 'x' || conv == 'p' then 16 else 10);
    DigitsWellFormed(Magnitude(conv, w), if conv == 'x' || conv == 'p' then 16 else 10);
  }

  /** The narrow tokens: a character stands for itself, `%%` for a percent sign, `%c` for the low byte. */
  lemma NarrowOutput(c: char, w: word)
    requires c != '%' && c != '\0'
    ensures Render([Literal(c)], []) == [c]
    ensures Render([Conversion([], '%')], []) == "%"
    ensures Render([Conversion([], 'c')], [Word(w)]) == [(w % 256) as char]
  {
  }

  /** A format without percent signs prints itself. */
  lemma {:induction false} PlainOutput(s: CString, i: nat, args: seq<Arg>) returns (ts: seq<Token>)
    requires i <= |s| && forall j :: 0 <= j < |s| ==> s[j] != '%'
    ensures ParseFrom(s, i) == Some(ts) && TokensOk(ts) && ArgsFit(ts, args) && Render(ts, args) == s[i..]
    decreases |s| - i
  {
    if i == |s| {
      ts := [];
    } else {
      var rest := PlainOutput(s, i + 1, args);
      ts := [Literal(s[i])] + rest;
      assert s[i..] == [s[i]] + s[i + 1..];
    }
  }

  /** The tokens of the format `0x%08x`. */
  function HexTokens(): seq<Token>
  {
    [Literal('0'), Literal('x'), Conversion("08", 'x')]
  }

  lemma HexFormat()
    ensures NulFree("0x%08x") && Parse("0x%08x") == Some(HexTokens())
    ensures TokensOk(HexTokens()) && ArgsFit(HexTokens(), [Word(0x2a)])
    ensures Render(HexTokens(), [Word(0x2a)]) == "0x0000002a"
  {
    HexParses();
    var ts, args := HexTokens(), [Word(0x2a)];
    assert ts[1..] == [Literal('x'), Conversion("08", 'x')] && ts[1..][1..] == [Conversion("08", 'x')];
    HexNumber();
    assert Render(ts[1..][1..], args) == "0000002a";
  }

  lemma HexParses()
    ensures NulFree("0x%08x") && TokensOk(HexTokens()) && Parse("0x%08x") == Some(HexTokens())
  {
    var ts := HexTokens();
    assert ts[1..] == [Literal('x'), Conversion("08", 'x')] && ts[1..][1..] == [Conversion("08", 'x')];
    assert TokenText(ts[2]) == "%08x" && ts[1..][1..][1..] == [];
    assert Text(ts[1..][1..]) == "%08x";
    assert Text(ts[1..]) == ['x'] + "%08x" == "x%08x";
    assert Text(ts) == ['0'] + "x%08x" == "0x%08x";
    AcceptedExactly("0x%08x", ts);
  }

  lemma HexNumber()
    ensures RenderArg("08", 'x', Word(0x2a)) == "0000002a"
  {
    assert Digits(0x2a, 16) == Digits(2, 16) + [DigitChar(10)] == "2a";
    assert "08"[..1] == "0" && Value("0", 10) == 0 && Value("08", 10) == 8;
    assert Repeat('0', 6) == "000000";
  }

  // ---- Output ----

  /** The characters from a place in memory up to the terminator. */
  function TextAt(mem: seq<char>, at: nat): seq<char>
    decreases |mem| - at
  {
    if at >= |mem| || mem[at] == '\0' then [] else [mem[at]] + TextAt(mem, at + 1)
  }

  lemma {:induction false} TextInMemory(mem: seq<char>, at: nat, text: CString)
    requires at + |text| < |mem| && mem[at + |text|] == '\0'
    requires forall i :: 0 <= i < |text| ==> mem[at + i] == text[i]
    ensures TextAt(mem, at) == text
    decreases |text|
  {
    if text != [] {
      assert mem[at] == text[0];
      forall i | 0 <= i < |text| - 1
        ensures mem[at + 1 + i] == text[1..][i]
      {
        assert mem[at + (i + 1)] == text[i + 1];
      }
      TextInMemory(mem, at + 1, text[1..]);
    }
  }

  /** The UART as a place where characters go. */
  class Console {
    var output: seq<char>

    constructor ()
      ensures output == []
    {
      output := [];
    }

    /** `uart_put_char`. */
    method PutChar(c: char)
      modifies this
      ensures output == old(output) + [c]
    {
      output := output + [c];
    }

    /** `kprint`; a terminator follows the text. */
    method KPrint(mem: seq<char>, at: nat)
      requires at + |TextAt(mem, at)| < |mem|
      modifies this
      ensures output == old(output) + TextAt(mem, at)
    {
      var i := at;
      while mem[i] != '\0'
        invariant at <= i && i + |TextAt(mem, i)| < |mem|
        invariant output + TextAt(mem, i) == old(output) + TextAt(mem, at)
        decreases |mem| - i
      {
        PutChar(mem[i]);
        i := i + 1;
      }
    }

    /** `print_with_padding`. */
    method PrintWithPadding(mem: seq<char>, at: nat, len: nat, width: nat, padding: char)
      requires at + |TextAt(mem, at)| < |mem| && len == |TextAt(mem, at)|
      modifies this
      ensures output == old(output) + Field(TextAt(mem, at), width, padding)
    {
      var n := Max(len, width) - len;
      var i := 0;
      while i < n
        invariant 0 <= i <= n && output == old(output) + Repeat(padding, i)
      {
        PutChar(padding);
        i := i + 1;
      }
      KPrint(mem, at);
    }

    /** The cases of `kprintf` that call `kutostr`. */
    method PrintUnsigned(w: word, base: nat, numStr: array<char>, width: nat, padding: char)
      requires numStr.Length == 21 && (base == 10 || base == 16)
      modifies this, numStr
      ensures output == old(output) + Field(Digits(w, base), width, padding)
    {
      WordFits(w);
      DigitsWellFormed(w, base);
      var _, len := KUtoStr(w, base, numStr, 0, 0);
      TextInMemory(numStr[..], 0, Digits(w, base));
      PrintWithPadding(numStr[..], 0, len, width, padding);
    }

    /** The case of `kprintf` that calls `kitostr`: the sign comes before the padding. */
    method PrintSigned(n: int, numStr: array<char>, width: word, padding: char)
      requires numStr.Length == 21 && -0x8000_0000 < n < 0x8000_0000
      modifies this, numStr
      ensures output == old(output) + SignedField(n, width, padding)
    {
      var len := ConvertSigned(n, numStr);
      var offset: nat := 0;
      if numStr[0] == '-' {
        PutChar('-');
        offset := 1;
      }
      PrintWithPadding(numStr[..], offset, len - offset, SignedWidth(width, offset), padding);
    }

    method ConvertSigned(n: int, numStr: array<char>) returns (len: nat)
      requires numStr.Length == 21 && -0x8000_0000 < n < 0x8000_0000
      modifies numStr
      ensures len == |SignedDigits(n, 10)| <= 11
      ensures numStr[0] == '-' <==> n < 0
      ensures n < 0 ==> TextAt(numStr[..], 1) == Digits(-n, 10)
      ensures n >= 0 ==> TextAt(numStr[..], 0) == Digits(n, 10)
    {
      SignedFits(n);
      var r;
      r, len := KItoStr(n, 10, numStr, 0, 0);
      SignedInMemory(n, old(numStr[..]), numStr[..]);
    }

    /** The conversions that take an argument; `padding` may be left over when there are no flags. */
    method PrintArg(ghost flags: seq<char>, conv: char, a: Arg, numStr: array<char>, width: word, padding: char)
      requires AllowedConversion(flags, conv) && conv != '%' && ArgFits(conv, a) && numStr.Length == 21
      requires width == WidthOf(flags) && (flags != [] ==> padding == PaddingOf(flags, ' '))
      modifies this, numStr
      ensures output == old(output) + RenderArg(flags, conv, a)
    {
      if conv == 'c' {
        PutChar((a.w % 256) as char);
      } else if conv == 's' {
        StalePadding(flags, padding, a.s, 0);
        TextInMemory(a.s + ['\0'], 0, a.s);
        PrintWithPadding(a.s + ['\0'], 0, |a.s|, width, padding);
      } else if conv == 'd' || conv == 'i' {
        StalePadding(flags, padding, [], Signed(a.w));
        PrintSigned(Signed(a.w), numStr, width, padding);
      } else {
        PrintUnsignedArg(flags, conv, a.w, numStr, width, padding);
      }
    }

    /** The cases `x`, `u` and `p`. */
    method PrintUnsignedArg(ghost flags: seq<char>, conv: char, w: word, numStr: array<char>, width: word,
                            padding: char)
      requires (conv == 'x' || conv == 'u' || conv == 'p') && numStr.Length == 21
      requires width == WidthOf(flags) && (flags != [] ==> padding == PaddingOf(flags, ' '))
      modifies this, numStr
      ensures output == old(output) + RenderArg(flags, conv, Word(w))
    {
      StalePadding(flags, padding, Digits(w, if conv == 'u' then 10 else 16), 0);
      if conv == 'x' {
        PrintUnsigned(w, 16, numStr, width, padding);
      } else if conv == 'u' {
        PrintUnsigned(w, 10, numStr, width, padding);
      } else {
        TextInMemory("0x\0", 0, "0x");
        KPrint("0x\0", 0);
        PrintUnsigned(w, 16, numStr, width, padding);
        Associate(old(output), "0x", Field(Digits(w, 16), width, padding));
      }
    }

    /** One turn of the loop of `kprintf`: one token is printed, with the argument it takes. */
    method PrintToken(format: CString, cur: nat, va: seq<Arg>, pad0: char, numStr: array<char>, ghost t: Token)
      returns (next: nat, rest: seq<Arg>, pad: char)
      requires cur < |format| && TokenEnd(format, cur).Some? && numStr.Length == 21
      requires t == TokenAt(format, cur) && TokenOk(t) && HeadFits(t, va)
      modifies this, numStr
      ensures next == TokenEnd(format, cur).value && rest == ArgsAfter(t, va)
      ensures output == old(output) + Printed(t, va)
    {
      rest, pad := va, pad0;
      if format[cur] != '%' {
        PutChar(format[cur]);
        next := cur + 1;
      } else {
        next, rest, pad := PrintConversion(format, cur + 1, va, pad0, numStr);
      }
    }

    /** The same, in terms of what is left to print. */
    method PrintNext(format: CString, cur: nat, va: seq<Arg>, pad0: char, numStr: array<char>, ghost ts: seq<Token>)
      returns (next: nat, rest: seq<Arg>, pad: char)
      requires cur < |format| && ParseFrom(format, cur) == Some(ts) && numStr.Length == 21
      requires TokensOk(ts) && ArgsFit(ts, va)
      modifies this, numStr
      ensures cur < next <= |format| && ts != [] && ParseFrom(format, next) == Some(ts[1..])
      ensures TokensOk(ts[1..]) && ArgsFit(ts[1..], rest)
      ensures output + Render(ts[1..], rest) == old(output) + Render(ts, va)
    {
      ParseHead(format, cur, ts);
      RenderHead(ts, va, output);
      next, rest, pad := PrintToken(format, cur, va, pad0, numStr, ts[0]);
    }

    /** The part of the turn after a percent sign. */
    method PrintConversion(format: CString, start: nat, va: seq<Arg>, pad0: char, numStr: array<char>)
      returns (next: nat, rest: seq<Arg>, pad: char)
      requires start <= |format| && numStr.Length == 21
      requires RunEnd(format, start) < |format|
      requires var conv := format[RunEnd(format, start)];
               && AllowedConversion(RunAt(format, start), conv)
               && (conv != '%' ==> va != [] && ArgFits(conv, va[0]))
      modifies this, numStr
      ensures var flags, conv := RunAt(format, start), format[RunEnd(format, start)];
              && next == RunEnd(format, start) + 1
              && rest == (if conv == '%' then va else va[1..])
              && output == old(output) + if conv == '%' then ['%'] else RenderArg(flags, conv, va[0])
    {
      var width, flagsLen;
      width, pad, flagsLen := CalcFieldWidth(format, start, pad0);
      next := start + flagsLen;
      var conv := At(format, next);
      rest := va;
      if conv == '%' {
        PutChar('%');
      } else {
        PrintArg(RunAt(format, start), conv, va[0], numStr, width, pad);
        rest := va[1..];
      }
      next := next + 1;
    }

    /**
     * `kprintf`: a format that the checker refuses prints nothing; any other is read to its terminator
     * and not beyond, and prints the rendering of its tokens.
     */
    method KPrintf(format: CString, args: seq<Arg>)
      requires Parse(format).Some? ==> ArgsFit(Parse(format).value, args)
      modifies this
      ensures Parse(format).None? ==> output == old(output)
      ensures Parse(format).Some? ==>
                TokensOk(Parse(format).value) && output == old(output) + Render(Parse(format).value, args)
    {
      var ok := CheckFormatStr(format);
      if !ok {
        return;
      }
      ghost var ts := Parse(format).value;
      TextOfParse(format, 0, ts);
      ghost var all := old(output) + Render(ts, args);
      var numStr := new char[21];
      var padding, cur, va := ' ', 0, args;
      while At(format, cur) != '\0'
        invariant cur <= |format| && ParseFrom(format, cur) == Some(ts)
        invariant TokensOk(ts) && ArgsFit(ts, va) && output + Render(ts, va) == all
        decreases |format| - cur
      {
        cur, va, padding := PrintNext(format, cur, va, padding, numStr, ts);
        ts := ts[1..];
      }
    }
  }

  lemma SignedFits(n: int)
    requires -0x8000_0000 < n < 0x8000_0000
    ensures |SignedDigits(n, 10)| <= 11
  {
    WordFits(if n < 0 then -n else n);
  }

  /** A signed number in memory: its sign, and its digits up to the terminator. */
  lemma SignedInMemory(n: int, before: seq<char>, mem: seq<char>)
    requires Written(before, mem, 0, SignedDigits(n, 10))
    ensures mem[0] == '-' <==> n < 0
    ensures n < 0 ==> TextAt(mem, 1) == Digits(-n, 10)
    ensures n >= 0 ==> TextAt(mem, 0) == Digits(n, 10)
  {
    var m: nat := if n < 0 then -n else n;
    var text, d := SignedDigits(n, 10), Digits(m, 10);
    DigitsWellFormed(m, 10);
    assert mem[0 + 0] == text[0];
    if n < 0 {
      forall i | 0 <= i < |d|
        ensures mem[1 + i] == d[i]
      {
        assert mem[0 + (i + 1)] == text[i + 1];
      }
      TextInMemory(mem, 1, d);
    } else {
      TextInMemory(mem, 0, d);
    }
  }

  lemma RenderHead(ts: seq<Token>, args: seq<Arg>, out: seq<char>)
    requires ts != [] && TokensOk(ts) && ArgsFit(ts, args)
    ensures TokenOk(ts[0]) && HeadFits(ts[0], args) && |TokenText(ts[0])| >= 1
    ensures TokensOk(ts[1..]) && ArgsFit(ts[1..], ArgsAfter(ts[0], args))
    ensures out + Render(ts, args) == (out + Printed(ts[0], args)) + Render(ts[1..], ArgsAfter(ts[0], args))
  {
    Associate(out, Printed(ts[0], args), Render(ts[1..], ArgsAfter(ts[0], args)));
  }

  /** Without flags the width is zero and the padding character does not matter. */
  lemma StalePadding(flags: seq<char>, padding: char, text: seq<char>, n: int)
    requires flags != [] ==> padding == PaddingOf(flags, ' ')
    ensures Field(text, WidthOf(flags), padding) == Field(text, WidthOf(flags), PaddingOf(flags, ' '))
    ensures SignedField(n, WidthOf(flags), padding) == SignedField(n, WidthOf(flags), PaddingOf(flags, ' '))
  {
    if flags == [] {
      SignedWidthValue(0, 0);
      SignedWidthValue(0, 1);
    }
  }
}
