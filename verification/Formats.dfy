/** The format strings that lib/std/io.c accepts, their field widths, and the checker. */
module Formats {
  import opened Words
  import opened Uart
  import opened Radix

  predicate NulFree(s: seq<char>)
  {
    forall i :: 0 <= i < |s| ==> s[i] != '\0'
  }

  /** The contents of a C string, without the terminator. */
  type CString = s: seq<char> | NulFree(s)

  /** Reading a C string: the terminator is the last place that may be read. */
  function At(s: CString, i: nat): char
    requires i <= |s|
  {
    if i == |s| then '\0' else s[i]
  }

  predicate IsDigit(c: char)
  {
    '0' <= c <= '9'
  }

  /** Where the digits that start at a place end. */
  function RunEnd(s: seq<char>, i: nat): (e: nat)
    requires i <= |s|
    ensures i <= e <= |s|
    decreases |s| - i
  {
    if i < |s| && IsDigit(s[i]) then RunEnd(s, i + 1) else i
  }

  /** A character to copy, or a conversion with its digits and its letter. */
  datatype Token = Literal(c: char) | Conversion(flags: seq<char>, conv: char)

  /** The conversions that take a field width. */
  predicate WideConversion(c: char)
  {
    c == 'x' || c == 'd' || c == 'i' || c == 'u' || c == 'p' || c == 's'
  }

  predicate AllowedConversion(flags: seq<char>, c: char)
  {
    WideConversion(c) || (flags == [] && (c == 'c' || c == '%'))
  }

  predicate TokenOk(t: Token)
  {
    match t
    case Literal(c) => c != '%' && c != '\0'
    case Conversion(flags, conv) =>
      AllowedConversion(flags, conv) && forall i :: 0 <= i < |flags| ==> IsDigit(flags[i])
  }

  predicate TokensOk(ts: seq<Token>)
  {
    forall i :: 0 <= i < |ts| ==> TokenOk(ts[i])
  }

  function TokenText(t: Token): seq<char>
  {
    match t
    case Literal(c) => [c]
    case Conversion(flags, conv) => ['%'] + flags + [conv]
  }

  /** The format string of a token list. */
  function Text(ts: seq<Token>): seq<char>
  {
    if ts == [] then [] else TokenText(ts[0]) + Text(ts[1..])
  }

  /** Where the token at a place ends, if there is a token. */
  function TokenEnd(s: seq<char>, i: nat): (r: Option<nat>)
    requires i < |s|
    ensures r.Some? ==> i < r.value <= |s|
  {
    if s[i] != '%' then Some(i + 1)
    else
      var e := RunEnd(s, i + 1);
      if e < |s| && AllowedConversion(s[i + 1..e], s[e]) then Some(e + 1) else None
  }

  /** The token at a place. */
  function TokenAt(s: seq<char>, i: nat): Token
    requires i < |s| && TokenEnd(s, i).Some?
  {
    if s[i] != '%' then Literal(s[i]) else Conversion(s[i + 1..RunEnd(s, i + 1)], s[RunEnd(s, i + 1)])
  }

  /** The tokens from a place to the end of the string, if it consists of tokens. */
  function ParseFrom(s: seq<char>, i: nat): Option<seq<Token>>
    requires i <= |s|
    decreases |s| - i
  {
    if i == |s| then Some([])
    else
      match TokenEnd(s, i)
      case None => None
      case Some(e) =>
        match ParseFrom(s, e)
        case None => None
        case Some(ts) => Some([TokenAt(s, i)] + ts)
  }

  /** The token list of a format string, if it is one. */
  function Parse(s: seq<char>): Option<seq<Token>>
  {
    ParseFrom(s, 0)
  }

  // ---- The grammar ----

  lemma {:induction false} RunEndIs(s: seq<char>, i: nat, e: nat)
    requires i <= e <= |s| && (forall j :: i <= j < e ==> IsDigit(s[j])) && (e < |s| ==> !IsDigit(s[e]))
    ensures RunEnd(s, i) == e
    decreases e - i
  {
    if i < e {
      RunEndIs(s, i + 1, e);
    }
  }

  lemma {:induction false} RunIsDigits(s: seq<char>, i: nat)
    requires i <= |s|
    ensures forall j :: i <= j < RunEnd(s, i) ==> IsDigit(s[j])
    ensures RunEnd(s, i) < |s| ==> !IsDigit(s[RunEnd(s, i)])
    decreases |s| - i
  {
    if i < |s| && IsDigit(s[i]) {
      RunIsDigits(s, i + 1);
    }
  }

  lemma ConversionPlaces(pre: seq<char>, flags: seq<char>, conv: char, post: seq<char>, s: seq<char>)
    requires s == pre + (['%'] + flags + [conv]) + post
    ensures var i, e := |pre| + 1, |pre| + 1 + |flags|;
            && e < |s| && s[|pre|] == '%' && s[i..e] == flags && s[e] == conv
            && forall j :: i <= j < e ==> s[j] == flags[j - i]
  {
  }

  lemma ConversionOfText(pre: seq<char>, flags: seq<char>, conv: char, post: seq<char>, s: seq<char>)
    requires TokenOk(Conversion(flags, conv)) && s == pre + (['%'] + flags + [conv]) + post
    ensures |pre| < |s| && TokenEnd(s, |pre|) == Some(|pre| + |flags| + 2)
    ensures TokenAt(s, |pre|) == Conversion(flags, conv)
  {
    ConversionPlaces(pre, flags, conv, post, s);
    RunEndIs(s, |pre| + 1, |pre| + 1 + |flags|);
  }

  /** A well-formed token is read back from its text. */
  lemma TokenOfText(pre: seq<char>, t: Token, post: seq<char>, s: seq<char>)
    requires TokenOk(t) && s == pre + TokenText(t) + post
    ensures TokenEnd(s, |pre|) == Some(|pre| + |TokenText(t)|) && TokenAt(s, |pre|) == t
  {
    if t.Conversion? {
      ConversionOfText(pre, t.flags, t.conv, post, s);
    }
  }

  /** The text of well-formed tokens parses to these tokens. */
  lemma {:induction false} ParseOfText(pre: seq<char>, ts: seq<Token>, s: seq<char>)
    requires TokensOk(ts) && s == pre + Text(ts)
    ensures ParseFrom(s, |pre|) == Some(ts)
    decreases |ts|
  {
    if ts != [] {
      var a, rest := TokenText(ts[0]), Text(ts[1..]);
      TokenFits(pre, ts[0], a, rest, s);
      ParseOfText(pre + a, ts[1..], s);
      ParseCons(s, |pre|, |pre + a|, ts);
    }
  }

  lemma TokenFits(pre: seq<char>, t: Token, a: seq<char>, rest: seq<char>, s: seq<char>)
    requires TokenOk(t) && a == TokenText(t) && s == pre + (a + rest)
    ensures s == (pre + a) + rest && |pre| < |s|
    ensures TokenEnd(s, |pre|) == Some(|pre + a|) && TokenAt(s, |pre|) == t
  {
    Associate(pre, a, rest);
    TokenOfText(pre, t, rest, s);
  }

  lemma ParseCons(s: seq<char>, i: nat, e: nat, ts: seq<Token>)
    requires ts != [] && i < |s| && TokenEnd(s, i) == Some(e) && TokenAt(s, i) == ts[0]
    requires ParseFrom(s, e) == Some(ts[1..])
    ensures ParseFrom(s, i) == Some(ts)
  {
    assert [ts[0]] + ts[1..] == ts;
  }

  lemma TextOfToken(s: CString, i: nat)
    requires i < |s| && TokenEnd(s, i).Some?
    ensures TokenOk(TokenAt(s, i)) && TokenText(TokenAt(s, i)) == s[i..TokenEnd(s, i).value]
  {
    if s[i] == '%' {
      RunIsDigits(s, i + 1);
    }
  }

  /** What parses has a first token, and what follows it parses to the others. */
  lemma ParseHead(s: seq<char>, i: nat, ts: seq<Token>)
    requires i < |s| && ParseFrom(s, i) == Some(ts)
    ensures TokenEnd(s, i).Some? && ts != [] && ts[0] == TokenAt(s, i)
    ensures ParseFrom(s, TokenEnd(s, i).value) == Some(ts[1..])
  {
    var rest := ParseFrom(s, TokenEnd(s, i).value).value;
    assert ts == [TokenAt(s, i)] + rest;
    assert ts[1..] == rest;
  }

  lemma Cut(s: seq<char>, i: nat, e: nat)
    requires i <= e <= |s|
    ensures s[i..e] + s[e..] == s[i..]
  {
  }

  lemma JoinText(s: seq<char>, i: nat, e: nat, ts: seq<Token>)
    requires i <= e <= |s| && ts != [] && TokenText(ts[0]) == s[i..e] && Text(ts[1..]) == s[e..]
    ensures Text(ts) == s[i..]
  {
    Cut(s, i, e);
  }

  lemma JoinTokens(ts: seq<Token>)
    requires ts != [] && TokenOk(ts[0]) && TokensOk(ts[1..])
    ensures TokensOk(ts)
  {
    assert ts == [ts[0]] + ts[1..];
  }

  /** What parses is the text of its tokens, which are well-formed. */
  lemma {:induction false} TextOfParse(s: CString, i: nat, ts: seq<Token>)
    requires i <= |s| && ParseFrom(s, i) == Some(ts)
    ensures TokensOk(ts) && Text(ts) == s[i..]
    decreases |s| - i
  {
    if i < |s| {
      ParseHead(s, i, ts);
      TextOfToken(s, i);
      var e := TokenEnd(s, i).value;
      TextOfParse(s, e, ts[1..]);
      JoinText(s, i, e, ts);
      JoinTokens(ts);
    }
  }

  /** The strings that parse are exactly the texts of well-formed token lists, and to these they parse. */
  lemma AcceptedExactly(s: CString, ts: seq<Token>)
    ensures Parse(s) == Some(ts) <==> TokensOk(ts) && Text(ts) == s
  {
    if Parse(s) == Some(ts) {
      TextOfParse(s, 0, ts);
      assert s[0..] == s;
    }
    if TokensOk(ts) && Text(ts) == s {
      assert s == [] + Text(ts);
      ParseOfText([], ts, s);
    }
  }

  /** Exactly these letters are accepted after a percent sign and digits, two of them only without digits. */
  lemma AcceptedLetters(flags: seq<char>, c: char)
    requires (forall i :: 0 <= i < |flags| ==> '0' <= flags[i] <= '9') && !('0' <= c <= '9')
    ensures Parse(['%'] + flags + [c]).Some? <==> c in "xdiups" || (flags == [] && c in "c%")
  {
    var s := ['%'] + flags + [c];
    assert s[1..1 + |flags|] == flags && s[1 + |flags|] == c;
    assert forall j :: 1 <= j < 1 + |flags| ==> s[j] == flags[j - 1];
    RunEndIs(s, 1, 1 + |flags|);
    assert ParseFrom(s, |s|) == Some([]);
    assert TokenEnd(s, 0).Some? <==> AllowedConversion(flags, c);
  }

  // ---- The checker ----

  /** The loop that skips digits. */
  method SkipDigits(s: CString, start: nat) returns (cur: nat)
    requires start <= |s|
    ensures cur == RunEnd(s, start) <= |s| && !IsDigit(At(s, cur))
  {
    cur := start;
    while '0' <= At(s, cur) <= '9'
      invariant start <= cur <= |s| && RunEnd(s, cur) == RunEnd(s, start)
      decreases |s| - cur
    {
      cur := cur + 1;
    }
  }

  /** The `do` loop of `check_format_str`, from the character after a percent sign. */
  method CheckConversion(s: CString, start: nat) returns (ok: bool, cur: nat)
    requires start <= |s|
    ensures var e := RunEnd(s, start);
            && ok == (e < |s| && AllowedConversion(s[start..e], s[e]))
            && (ok ==> cur == e + 1)
  {
    cur := start;
    var repeat, again := false, true;
    while again
      invariant start <= cur <= |s| + 1
      invariant !again && !repeat ==>
                  var e := RunEnd(s, start); e < |s| && cur == e + 1 && AllowedConversion(s[start..e], s[e])
      invariant again ==> cur == (if repeat then RunEnd(s, start) else start) && (repeat ==> !IsDigit(At(s, cur)))
      invariant repeat ==> again && RunEnd(s, start) > start
      decreases again, !repeat
    {
      var c := At(s, cur);
      cur := cur + 1;
      if '0' <= c <= '9' {
        cur := SkipDigits(s, cur);
        repeat := true;
      } else if c == 'c' || c == '%' {
        if repeat {
          return false, cur;
        }
      } else if c == 'x' || c == 'd' || c == 'i' || c == 'u' || c == 'p' || c == 's' {
        repeat := false;
      } else {
        return false, cur;
      }
      again := repeat;
    }
    ok := true;
  }

  /** One turn of the outer loop of `check_format_str`. */
  method CheckToken(s: CString, cur: nat) returns (ok: bool, next: nat)
    requires cur < |s|
    ensures ok == TokenEnd(s, cur).Some? && (ok ==> next == TokenEnd(s, cur).value)
  {
    if At(s, cur) != '%' {
      return true, cur + 1;
    }
    ok, next := CheckConversion(s, cur + 1);
  }

  /** `check_format_str` accepts exactly the strings that parse, and reads none past its terminator. */
  method CheckFormatStr(s: CString) returns (ok: bool)
    ensures ok == Parse(s).Some?
  {
    var cur := 0;
    while At(s, cur) != '\0'
      invariant cur <= |s| && Parse(s).Some? == ParseFrom(s, cur).Some?
      decreases |s| - cur
    {
      ok, cur := CheckToken(s, cur);
      if !ok {
        return;
      }
    }
    ok := true;
  }

  // ---- Field widths ----

  lemma Distribute(d: nat, p: nat, v: nat, l: nat, x: nat, q: nat)
    requires x == d * p + v && q == 10 * p
    ensures x * 10 + l == d * q + (v * 10 + l)
  {
    assert d * q == 10 * (d * p);
  }

  /** A digit in front counts with the power of ten of its place. */
  lemma {:induction false} ValuePrepend(c: char, t: seq<char>)
    ensures Value([c] + t, 10) == DigitValue(c) * Power(10, |t|) + Value(t, 10)
    decreases |t|
  {
    if t == [] {
      assert [c] + t == [] + [c];
      ValueAppend([], c, 10);
    } else {
      var u, l := t[..|t| - 1], t[|t| - 1];
      assert t == u + [l] && [c] + t == ([c] + u) + [l];
      ValuePrepend(c, u);
      ValueAppend(u, l, 10);
      ValueAppend([c] + u, l, 10);
      Distribute(DigitValue(c), Power(10, |u|), Value(u, 10), DigitValue(l), Value([c] + u, 10), Power(10, |t|));
    }
  }

  lemma WrapProduct(p: nat, d: nat)
    ensures p % WORD_LIMIT * d % WORD_LIMIT == p * d % WORD_LIMIT
  {
    var a, x := p / WORD_LIMIT, p % WORD_LIMIT;
    var q, r := x * d / WORD_LIMIT, x * d % WORD_LIMIT;
    assert p * d == a * d * WORD_LIMIT + x * d by {
      assert p == a * WORD_LIMIT + x;
      assert (a * WORD_LIMIT + x) * d == a * d * WORD_LIMIT + x * d;
    }
    Remainder(p * d, WORD_LIMIT, a * d + q, r);
  }

  lemma WrapSum(v: nat, w: nat)
    ensures (v % WORD_LIMIT + w % WORD_LIMIT) % WORD_LIMIT == (v + w) % WORD_LIMIT
  {
    var a, x := v / WORD_LIMIT, v % WORD_LIMIT;
    var b, y := w / WORD_LIMIT, w % WORD_LIMIT;
    var c, z := (x + y) / WORD_LIMIT, (x + y) % WORD_LIMIT;
    Remainder(v + w, WORD_LIMIT, a + b + c, z);
  }

  /** The padding character that a digit run asks for; without one the old padding stays. */
  function PaddingOf(run: seq<char>, padding: char): char
  {
    if run == [] then padding else if run[0] == '0' then '0' else ' '
  }

  /** The field width of a digit run: its decimal value in 32 bits. */
  function WidthOf(run: seq<char>): word
  {
    Value(run, 10) % WORD_LIMIT
  }

  /** Adding a product and multiplying by ten commute with wrapping at 32 bits. */
  lemma WrapStep(p: nat, v: nat, d: nat, width: word, power: word, next: nat)
    requires width == v % WORD_LIMIT && power == p % WORD_LIMIT && next == d * p + v
    ensures (width + power * d % WORD_LIMIT) % WORD_LIMIT == next % WORD_LIMIT
    ensures power * 10 % WORD_LIMIT == 10 * p % WORD_LIMIT
  {
    WrapProduct(p, d);
    WrapProduct(p, 10);
    assert d * p == p * d;
    WrapSum(v, p * d);
  }

  /** The reverse walk of `calc_field_width` over a digit run. */
  method WidthFromRight(s: CString, beg: nat, end: nat) returns (width: word)
    requires beg <= end <= |s|
    requires forall i :: beg <= i < end ==> IsDigit(s[i])
    ensures width == Value(s[beg..end], 10) % 0x1_0000_0000
  {
    width := 0;
    var cur: int, power: word := end, 1;
    while cur > beg
      invariant beg <= cur <= end
      invariant width == WidthOf(s[cur..end]) && power == Power(10, end - cur) % WORD_LIMIT
    {
      cur := cur - 1;
      var digit := s[cur] as int - '0' as int;
      assert s[cur..end] == [s[cur]] + s[cur + 1..end];
      ghost var p, v := Power(10, end - cur - 1), Value(s[cur + 1..end], 10);
      ValuePrepend(s[cur], s[cur + 1..end]);
      WrapStep(p, v, digit, width, power, Value(s[cur..end], 10));
      width := (width + power * digit % WORD_LIMIT) % WORD_LIMIT;
      power := power * 10 % WORD_LIMIT;
    }
  }

  lemma LeadingZero(s: seq<char>, i: nat, e: nat)
    requires i < e <= |s| && s[i] == '0'
    ensures WidthOf(s[i + 1..e]) == WidthOf(s[i..e])
  {
    assert s[i..e] == ['0'] + s[i + 1..e];
    ValuePrepend('0', s[i + 1..e]);
  }

  /** The digits at a place. */
  function RunAt(s: seq<char>, i: nat): seq<char>
    requires i <= |s|
  {
    s[i..RunEnd(s, i)]
  }

  /**
   * `calc_field_width`: the right-to-left sum of powers is the decimal value of the digit run in 32
   * bits, and `flagLen` is the length of the whole run with the zero flag.
   */
  method CalcFieldWidth(s: CString, start: nat, padding: char) returns (width: word, pad: char, flagLen: nat)
    requires start <= |s|
    ensures flagLen == |RunAt(s, start)|
    ensures width == WidthOf(RunAt(s, start)) == Value(RunAt(s, start), 10) % 0x1_0000_0000
    ensures pad == PaddingOf(RunAt(s, start), padding)
    ensures pad == if RunAt(s, start) == [] then padding else if RunAt(s, start)[0] == '0' then '0' else ' '
  {
    RunIsDigits(s, start);
    width, pad, flagLen := 0, padding, 0;
    if '0' <= At(s, start) <= '9' {
      var beg := start;
      if At(s, start) == '0' {
        pad := '0';
        beg := beg + 1;
        LeadingZero(s, start, RunEnd(s, start));
      } else {
        pad := ' ';
      }
      var end := SkipDigits(s, beg);
      flagLen := end - start;
      width := WidthFromRight(s, beg, end);
    }
  }
}
