/** Unsigned 32-bit machine words, as integers, and the C bit operators on them. */
module Words {
  const WORD_LIMIT: int := 0x1_0000_0000

  type word = x: int | 0 <= x < WORD_LIMIT

  function Pow2(k: nat): (p: nat)
    ensures p >= 1
  {
    if k == 0 then 1 else 2 * Pow2(k - 1)
  }

  /** `x` shifted left by `k` places, without a width limit. */
  function Shl(x: nat, k: nat): nat
  {
    if k == 0 then x else 2 * Shl(x, k - 1)
  }

  /** The C operator `|`. */
  function Or(x: nat, y: nat): nat
  {
    if x == 0 then y
    else if y == 0 then x
    else 2 * Or(x / 2, y / 2) + if x % 2 == 1 || y % 2 == 1 then 1 else 0
  }

  /** The C operator `&`. */
  function And(x: nat, y: nat): nat
  {
    if x == 0 || y == 0 then 0
    else 2 * And(x / 2, y / 2) + if x % 2 == 1 && y % 2 == 1 then 1 else 0
  }

  /** The C operator `~` on a 32-bit operand. */
  function Not(x: word): word
  {
    WORD_LIMIT - 1 - x
  }

  lemma ShlIsTimes(x: nat, k: nat)
    ensures Shl(x, k) == x * Pow2(k)
  {
    if k > 0 {
      ShlIsTimes(x, k - 1);
    }
  }

  lemma Pow2Add(a: nat, b: nat)
    ensures Pow2(a + b) == Pow2(a) * Pow2(b)
  {
    if a > 0 {
      Pow2Add(a - 1, b);
    }
  }

  lemma Pow2Values()
    ensures Pow2(1) == 2 && Pow2(2) == 4 && Pow2(4) == 16 && Pow2(8) == 256 && Pow2(10) == 1024
    ensures Pow2(12) == 4096 && Pow2(15) == 0x8000 && Pow2(20) == 0x10_0000 && Pow2(32) == WORD_LIMIT
  {
    assert Pow2(4) == 16;
    Pow2Add(4, 4);
    Pow2Add(8, 2);
    Pow2Add(8, 4);
    Pow2Add(10, 5);
    Pow2Add(12, 8);
    Pow2Add(20, 12);
  }

  lemma ShlAdd(x: nat, a: nat, b: nat)
    ensures Shl(x, a + b) == Shl(Shl(x, a), b)
  {
    if b > 0 {
      ShlAdd(x, a, b - 1);
    }
  }

  lemma ShlValues(x: nat)
    ensures Shl(x, 0) == x && Shl(x, 1) == 2 * x && Shl(x, 2) == 4 * x && Shl(x, 4) == 16 * x
    ensures Shl(x, 10) == 1024 * x && Shl(x, 12) == 4096 * x && Shl(x, 15) == 0x8000 * x && Shl(x, 20) == 0x10_0000 * x
  {
    ShlFour(x, 0);
    ShlFour(x, 4);
    ShlFour(x, 8);
    ShlFour(x, 11);
    ShlFour(x, 12);
    ShlFour(x, 16);
    assert Shl(x, 1) == 2 * x;
    assert Shl(x, 10) == 4 * Shl(x, 8);
    assert Shl(x, 11) == 2 * Shl(x, 10);
  }

  lemma ShlFour(x: nat, k: nat)
    ensures Shl(x, k + 4) == 16 * Shl(x, k)
  {
    ShlAdd(x, k, 4);
    var y := Shl(x, k);
    assert Shl(y, 1) == 2 * y;
    assert Shl(y, 2) == 2 * Shl(y, 1);
    assert Shl(y, 3) == 2 * Shl(y, 2);
    assert Shl(y, 4) == 2 * Shl(y, 3);
  }

  lemma OrStep(x: nat, y: nat)
    ensures Or(x, y) == 2 * Or(x / 2, y / 2) + if x % 2 == 1 || y % 2 == 1 then 1 else 0
  {
  }

  lemma AndStep(x: nat, y: nat)
    ensures And(x, y) == 2 * And(x / 2, y / 2) + if x % 2 == 1 && y % 2 == 1 then 1 else 0
  {
  }

  lemma OrStepAt(x: nat, y: nat, a: nat, b: nat)
    requires a == x / 2 && b == y / 2
    ensures Or(x, y) == 2 * Or(a, b) + if x % 2 == 1 || y % 2 == 1 then 1 else 0
  {
    OrStep(x, y);
  }

  lemma AndStepAt(x: nat, y: nat, a: nat, b: nat)
    requires a == x / 2 && b == y / 2
    ensures And(x, y) == 2 * And(a, b) + if x % 2 == 1 && y % 2 == 1 then 1 else 0
  {
    AndStep(x, y);
  }

  lemma HalfOf(h: nat, k: nat, l: nat)
    requires k > 0
    ensures (Shl(h, k) + l) / 2 == Shl(h, k - 1) + l / 2 && (Shl(h, k) + l) % 2 == l % 2
  {
  }

  /** `|` acts separately on the low `k` bits and on the bits above. */
  lemma {:induction false} OrSplit(k: nat, h: nat, l: nat, g: nat, m: nat)
    requires l < Pow2(k) && m < Pow2(k)
    ensures Or(Shl(h, k) + l, Shl(g, k) + m) == Shl(Or(h, g), k) + Or(l, m)
    ensures Or(l, m) < Pow2(k)
  {
    if k > 0 {
      HalfOf(h, k, l);
      HalfOf(g, k, m);
      OrSplit(k - 1, h, l / 2, g, m / 2);
      OrStepAt(Shl(h, k) + l, Shl(g, k) + m, Shl(h, k - 1) + l / 2, Shl(g, k - 1) + m / 2);
      OrStep(l, m);
    }
  }

  /** `&` acts separately on the low `k` bits and on the bits above. */
  lemma {:induction false} AndSplit(k: nat, h: nat, l: nat, g: nat, m: nat)
    requires l < Pow2(k) && m < Pow2(k)
    ensures And(Shl(h, k) + l, Shl(g, k) + m) == Shl(And(h, g), k) + And(l, m)
  {
    if k > 0 {
      HalfOf(h, k, l);
      HalfOf(g, k, m);
      AndSplit(k - 1, h, l / 2, g, m / 2);
      AndStepAt(Shl(h, k) + l, Shl(g, k) + m, Shl(h, k - 1) + l / 2, Shl(g, k - 1) + m / 2);
      AndStep(l, m);
    }
  }

  /** A disjunction of disjoint fields is their sum. */
  lemma OrField(k: nat, h: nat, l: nat)
    requires l < Pow2(k)
    ensures Or(Shl(h, k), l) == Or(l, Shl(h, k)) == Shl(h, k) + l
  {
    OrSplit(k, h, 0, 0, l);
    OrSplit(k, 0, l, h, 0);
    ShlIsTimes(0, k);
  }

  lemma {:induction false} AndOnes(k: nat, l: nat)
    requires l < Pow2(k)
    ensures And(l, Pow2(k) - 1) == l
  {
    if k > 0 {
      AndOnes(k - 1, l / 2);
      AndStep(l, Pow2(k) - 1);
      assert (Pow2(k) - 1) / 2 == Pow2(k - 1) - 1;
    }
  }

  /** Masking with 2^k - 1 keeps the low bits. */
  lemma AndLow(k: nat, h: nat, l: nat)
    requires l < Pow2(k)
    ensures And(Shl(h, k) + l, Pow2(k) - 1) == l
  {
    AndSplit(k, h, l, 0, Pow2(k) - 1);
    ShlIsTimes(0, k);
    AndOnes(k, l);
  }

  /** Masking with ones above the low `k` bits clears the low bits. */
  lemma AndHigh(k: nat, j: nat, h: nat, l: nat)
    requires l < Pow2(k) && h < Pow2(j)
    ensures And(Shl(h, k) + l, Shl(Pow2(j) - 1, k)) == Shl(h, k)
  {
    AndSplit(k, h, l, Pow2(j) - 1, 0);
    AndOnes(j, h);
  }

  /** A number is its bits from place `k` on over its low `k` bits. */
  lemma {:induction false} Parts(x: nat, k: nat) returns (q: nat, r: nat)
    ensures r < Pow2(k) && x == Shl(q, k) + r
    decreases k
  {
    if k == 0 {
      q, r := x, 0;
    } else {
      q, r := Parts(x / 2, k - 1);
      r := 2 * r + x % 2;
    }
  }

  lemma Remainder(x: nat, d: nat, q: nat, r: nat)
    requires x == q * d + r && r < d
    ensures x % d == r && x / d == q
  {
    var q', r' := x / d, x % d;
    assert x == q' * d + r';
    NoMultiple(q - q', d, q * d - q' * d);
  }

  lemma NoMultiple(a: int, d: int, e: int)
    requires a * d == e && -d < e < d
    ensures a == 0
  {
    if a >= 1 {
      AtLeastOnce(a, d);
    } else if a <= -1 {
      AtLeastOnce(-a, d);
    }
  }

  lemma AtLeastOnce(a: int, d: int)
    requires a >= 1 && d >= 0
    ensures a * d >= d
  {
    assert (a - 1) * d >= 0;
  }

  /** `x & (2^k - 1)` is the remainder by 2^k. */
  lemma MaskLow(x: nat, k: nat)
    ensures And(x, Pow2(k) - 1) == x % Pow2(k)
  {
    var q, r := Parts(x, k);
    AndLow(k, q, r);
    ShlIsTimes(q, k);
    Remainder(x, Pow2(k), q, r);
  }

  lemma Pow2Of24()
    ensures Pow2(24) == 0x100_0000
  {
    Pow2Values();
    Pow2Add(12, 12);
  }

  lemma HighMask()
    ensures Shl(Pow2(24) - 1, 8) == 0xffffff00
  {
    Pow2Of24();
    Pow2Values();
    ShlIsTimes(Pow2(24) - 1, 8);
  }

  /** The numbers that two parts give. */
  lemma PartsOf256(x: nat, q: nat, r: nat)
    requires r < 256 && x == q * 256 + r
    ensures x - x % 256 == q * 256
  {
  }

  /** `x & 0xffffff00`, as in the switch of an L1 entry. */
  lemma MaskHigh24(x: word)
    ensures And(x, 0xffffff00) == x - x % 256
  {
    var q, r := Parts(x, 8);
    assert Pow2(8) == 256 by { Pow2Values(); }
    assert Shl(q, 8) == q * 256 by { ShlIsTimes(q, 8); }
    assert q < Pow2(24) by { Pow2Of24(); }
    assert Shl(Pow2(24) - 1, 8) == 0xffffff00 by { HighMask(); }
    AndHigh(8, 24, q, r);
    PartsOf256(x, q, r);
  }
}
