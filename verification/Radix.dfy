/** The number to text conversion of lib/std/util.c. */
module Radix {
  import opened Words

  /** The character that `kutostr` writes for a digit. */
  function DigitChar(d: nat): char
    requires d < 36
  {
    if d >= 10 then (d - 10 + 'a' as int) as char else (d + '0' as int) as char
  }

  /** The value of a character read as a digit. */
  function DigitValue(c: char): nat
  {
    if '0' <= c <= '9' then c as int - '0' as int
    else if 'a' <= c <= 'z' then c as int - 'a' as int + 10
    else 36
  }

  lemma DigitRoundTrip(d: nat)
    requires d < 36
    ensures DigitValue(DigitChar(d)) == d && (DigitChar(d) == '0' <==> d == 0)
    ensures DigitChar(d) != '\0' && DigitChar(d) != '-'
  {
  }

  /** A numeral in a base, of at least one digit. */
  predicate IsNumeral(s: seq<char>, base: nat)
  {
    s != [] && forall i :: 0 <= i < |s| ==> DigitValue(s[i]) < base
  }

  /** The value of a numeral, most significant digit first. */
  function Value(s: seq<char>, base: nat): nat
  {
    if s == [] then 0 else Value(s[..|s| - 1], base) * base + DigitValue(s[|s| - 1])
  }

  /** The numeral of a number, as `kutostr` is meant to write it. */
  function Digits(n: nat, base: nat): (s: seq<char>)
    requires 2 <= base <= 36
    decreases n
  {
    Divide(n, base);
    if n < base then [DigitChar(n)] else Digits(n / base, base) + [DigitChar(n % base)]
  }

  /** The digits still to be written when the loop of `kutostr` holds `n`. */
  function Rest(n: nat, base: nat): (s: seq<char>)
    requires 2 <= base <= 36
  {
    if n == 0 then [] else Digits(n, base)
  }

  function Power(b: nat, e: nat): nat
  {
    if e == 0 then 1 else b * Power(b, e - 1)
  }

  lemma ValueAppend(s: seq<char>, c: char, base: nat)
    ensures Value(s + [c], base) == Value(s, base) * base + DigitValue(c)
  {
    assert (s + [c])[..|s|] == s;
  }

  lemma Divide(n: nat, base: nat)
    requires base >= 2
    ensures n == n / base * base + n % base && (n > 0 ==> n / base < n)
  {
  }

  lemma RestStep(n: nat, base: nat)
    requires 2 <= base <= 36 && n > 0
    ensures Digits(n, base) == Rest(n / base, base) + [DigitChar(n % base)]
    ensures n / base < n
  {
    Divide(n, base);
    if n < base {
      Remainder(n, base, 0, n);
    } else {
      Remainder(n, base, n / base, n % base);
      assert n / base != 0;
    }
  }

  /** The numeral parses back to the number. */
  lemma {:induction false} DigitsRoundTrip(n: nat, base: nat)
    requires 2 <= base <= 36
    ensures Value(Digits(n, base), base) == n
    decreases n
  {
    if n < base {
      assert Digits(n, base) == [] + [DigitChar(n)];
      DigitRoundTrip(n);
    } else {
      Divide(n, base);
      DigitsRoundTrip(n / base, base);
      DigitRoundTrip(n % base);
    }
  }

  /** The numeral has digits of its base only, and no leading zero unless it is "0". */
  lemma {:induction false} DigitsWellFormed(n: nat, base: nat)
    requires 2 <= base <= 36
    ensures IsNumeral(Digits(n, base), base)
    ensures Digits(n, base)[0] == '0' <==> n == 0
    ensures n == 0 ==> Digits(n, base) == ['0']
    ensures forall i :: 0 <= i < |Digits(n, base)| ==> Digits(n, base)[i] != '\0' && Digits(n, base)[i] != '-'
    decreases n
  {
    if n < base {
      DigitRoundTrip(n);
    } else {
      RestStep(n, base);
      DigitsWellFormed(n / base, base);
      DigitRoundTrip(n % base);
    }
  }

  lemma Scale(a: nat, n: nat, c: nat, base: nat, r: nat)
    requires a <= n < c && r < base
    ensures base * a <= n * base + r < base * c
  {
    Monotone(a, n, base);
    Monotone(n + 1, c, base);
  }

  lemma Monotone(a: nat, b: nat, k: nat)
    requires a <= b
    ensures k * a <= b * k && a * k <= b * k && a * k == k * a && b * k == k * b
  {
    assert (b - a) * k >= 0;
  }

  /** The length of the numeral is the least that fits the number. */
  lemma {:induction false} DigitsLength(n: nat, base: nat)
    requires 2 <= base <= 36 && n > 0
    ensures Power(base, |Digits(n, base)| - 1) <= n < Power(base, |Digits(n, base)|)
    decreases n
  {
    if n < base {
      assert Power(base, 1) == base * Power(base, 0);
    } else {
      RestStep(n, base);
      Divide(n, base);
      DigitsLength(n / base, base);
      Scale(Power(base, |Digits(n / base, base)| - 1), n / base, Power(base, |Digits(n / base, base)|), base, n % base);
    }
  }

  /** A numeral with a leading digit other than zero has a value other than zero. */
  lemma {:induction false} LeadingDigit(s: seq<char>, base: nat)
    requires s != [] && DigitValue(s[0]) > 0 && base >= 1
    ensures Value(s, base) > 0
    decreases |s|
  {
    var t := s[..|s| - 1];
    if t != [] {
      LeadingDigit(t, base);
      assert Value(t, base) * base >= 1;
    }
  }

  lemma DigitsAppend(v: nat, d: nat, base: nat)
    requires 2 <= base <= 36 && v > 0 && d < base
    ensures Digits(v * base + d, base) == Digits(v, base) + [DigitChar(d)]
  {
    Remainder(v * base + d, base, v, d);
    Monotone(1, v, base);
  }

  /** The only numeral of a number without a leading zero is the one that is written. */
  lemma {:induction false} NumeralUnique(s: seq<char>, base: nat)
    requires 2 <= base <= 36 && IsNumeral(s, base) && (|s| == 1 || s[0] != '0')
    ensures Digits(Value(s, base), base) == s
    decreases |s|
  {
    var t, c := s[..|s| - 1], s[|s| - 1];
    var d := DigitValue(c);
    assert s == t + [c];
    if t == [] {
      assert Value(s, base) == d;
    } else {
      NumeralUnique(t, base);
      LeadingDigit(t, base);
      DigitsAppend(Value(t, base), d, base);
    }
  }

  lemma {:induction false} PowerMono(b: nat, d: nat, e: nat)
    requires d <= e && b >= 1
    ensures Power(b, d) <= Power(b, e)
    decreases e
  {
    if d < e {
      PowerMono(b, d, e - 1);
      assert b * Power(b, e - 1) >= Power(b, e - 1);
    }
  }

  /** A word has at most ten decimal and eight hexadecimal digits: with a sign it fits a buffer of 21. */
  lemma WordFits(n: word)
    ensures |Digits(n, 10)| <= 10 && |Digits(n, 16)| <= 8
  {
    if n > 0 {
      DigitsLength(n, 10);
      DigitsLength(n, 16);
      if |Digits(n, 10)| > 10 {
        PowerMono(10, 10, |Digits(n, 10)| - 1);
      }
      if |Digits(n, 16)| > 8 {
        PowerMono(16, 8, |Digits(n, 16)| - 1);
      }
    }
  }

  // ---- Signed numbers ----

  /** The text of a signed number. */
  function SignedDigits(n: int, base: nat): seq<char>
    requires 2 <= base <= 36
  {
    if n < 0 then ['-'] + Digits(-n, base) else Digits(n, base)
  }

  /** The number that a text with an optional minus sign stands for. */
  function SignedValue(s: seq<char>, base: nat): int
  {
    var negative := s != [] && s[0] == '-';
    var v: int := Value(if negative then s[1..] else s, base);
    if negative then -v else v
  }

  lemma SignedRoundTrip(n: int, base: nat)
    requires 2 <= base <= 36
    ensures SignedValue(SignedDigits(n, base), base) == n
    ensures SignedDigits(n, base)[0] == '-' <==> n < 0
  {
    var m: nat := if n < 0 then -n else n;
    DigitsRoundTrip(m, base);
    DigitsWellFormed(m, base);
    assert n < 0 ==> SignedDigits(n, base)[1..] == Digits(m, base);
  }

  // ---- The methods ----

  /** `n % base` and `n / base`. */
  method NextDigit(n: nat, base: nat) returns (q: nat, digit: nat)
    requires 2 <= base <= 36 && n > 0
    ensures q < n && digit < base && Digits(n, base) == Rest(q, base) + [DigitChar(digit)]
  {
    RestStep(n, base);
    return n / base, n % base;
  }

  /** `kcalc_digits`; its only caller passes a base between 2 and 36. */
  method KCalcDigits(n: word, base: nat) returns (num: nat)
    requires 2 <= base <= 36
    ensures num == |Digits(n, base)|
  {
    var m: nat := n;
    num := if n == 0 then 1 else 0;
    while m != 0
      invariant num + |Rest(m, base)| == |Digits(n, base)|
      decreases m
    {
      var q, _ := NextDigit(m, base);
      m := q;
      num := num + 1;
    }
  }

  /** Whether `kutostr` writes anything. */
  predicate GoodBase(base: nat)
  {
    2 <= base <= 36
  }

  /** `text` and a terminator stand at `at` in a buffer that is otherwise as before. */
  predicate Written(before: seq<char>, after: seq<char>, at: nat, text: seq<char>)
  {
    && |after| == |before| && at + |text| < |before|
    && (forall i :: 0 <= i < |text| ==> after[at + i] == text[i])
    && after[at + |text|] == '\0'
    && forall i :: 0 <= i < |before| && !(at <= i <= at + |text|) ==> after[i] == before[i]
  }

  /**
   * `kutostr` on the buffer from `at` on. A base outside 2..36 leaves the buffer and the length alone;
   * otherwise the numeral and a terminator are written, and the start of the buffer is returned.
   */
  method KUtoStr(n: word, base: nat, buf: array<char>, at: nat, len0: nat) returns (r: nat, len: nat)
    requires at <= buf.Length && (GoodBase(base) ==> at + |Digits(n, base)| < buf.Length)
    modifies buf
    ensures r == at
    ensures !GoodBase(base) ==> len == len0 && buf[..] == old(buf[..])
    ensures GoodBase(base) ==> len == |Digits(n, base)| && Written(old(buf[..]), buf[..], at, Digits(n, base))
  {
    if base < 2 || base > 36 {
      return at, len0;
    }
    len := KCalcDigits(n, base);
    var pos := at + len;
    buf[pos] := '\0';
    if n == 0 {
      pos := pos - 1;
      buf[pos] := '0';
      return pos, len;
    }
    pos := WriteDigits(n, base, buf, pos);
    return pos, len;
  }

  lemma Associate(a: seq<char>, b: seq<char>, c: seq<char>)
    ensures a + (b + c) == a + b + c
  {
  }

  /** The loop of `kutostr`: the digits of a number other than zero, up to `end`. */
  method WriteDigits(n: nat, base: nat, buf: array<char>, end: nat) returns (pos: nat)
    requires 2 <= base <= 36 && n > 0 && |Digits(n, base)| <= end <= buf.Length
    modifies buf
    ensures pos == end - |Digits(n, base)|
    ensures forall i :: 0 <= i < |Digits(n, base)| ==> buf[pos + i] == Digits(n, base)[i]
    ensures forall i :: 0 <= i < buf.Length && !(pos <= i < end) ==> buf[i] == old(buf[i])
  {
    var m := n;
    pos := end;
    ghost var done: seq<char> := [];
    while m != 0
      invariant |done| <= end && pos == end - |done|
      invariant Digits(n, base) == Rest(m, base) + done
      invariant forall i :: 0 <= i < |done| ==> buf[pos + i] == done[i]
      invariant forall i :: 0 <= i < buf.Length && !(pos <= i < end) ==> buf[i] == old(buf[i])
      decreases m
    {
      var q, digit := NextDigit(m, base);
      ghost var c := DigitChar(digit);
      Associate(Rest(q, base), [c], done);
      assert Digits(n, base) == Rest(q, base) + ([c] + done);
      m := q;
      pos := pos - 1;
      buf[pos] := DigitChar(digit);
      forall i | 0 <= i < |done| + 1
        ensures buf[pos + i] == ([c] + done)[i]
      {
        assert i > 0 ==> buf[pos + 1 + (i - 1)] == done[i - 1];
      }
      done := [c] + done;
    }
  }

  lemma WrittenSign(before: seq<char>, signed: seq<char>, after: seq<char>, at: nat, d: seq<char>)
    requires at < |before| && signed == before[at := '-'] && Written(signed, after, at + 1, d)
    ensures Written(before, after, at, ['-'] + d)
  {
    forall i | 0 <= i < |d| + 1
      ensures after[at + i] == (['-'] + d)[i]
    {
      if i > 0 {
        assert after[at + 1 + (i - 1)] == d[i - 1];
      }
    }
  }

  /** `kitostr`, for every number that can be negated in 32 bits. */
  method KItoStr(n: int, base: nat, buf: array<char>, at: nat, len0: nat) returns (r: nat, len: nat)
    requires -0x8000_0000 < n < 0x8000_0000
    requires at < buf.Length && (GoodBase(base) ==> at + |SignedDigits(n, base)| < buf.Length)
    modifies buf
    ensures r == at
    ensures !GoodBase(base) && n >= 0 ==> len == len0 && buf[..] == old(buf[..])
    ensures !GoodBase(base) && n < 0 ==> len == len0 + 1 && buf[..] == old(buf[..])[at := '-']
    ensures GoodBase(base) ==>
              len == |SignedDigits(n, base)| && Written(old(buf[..]), buf[..], at, SignedDigits(n, base))
  {
    if n < 0 {
      buf[at] := '-';
      ghost var signed := buf[..];
      r, len := KUtoStr(-n, base, buf, at + 1, len0);
      if GoodBase(base) {
        WrittenSign(old(buf[..]), signed, buf[..], at, Digits(-n, base));
      }
      r, len := r - 1, len + 1;
    } else {
      r, len := KUtoStr(n, base, buf, at, len0);
    }
  }
}
