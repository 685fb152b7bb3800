/** The bit-field macros of include/std/bits.h, on 32-bit operands. */
module Bits {
  import opened Words

  /** `IS_SET(x, i)`. */
  predicate Bit(x: nat, i: nat)
  {
    if i == 0 then x % 2 == 1 else Bit(x / 2, i - 1)
  }

  lemma PowerIsWord(bit: nat)
    requires bit < 32
    ensures Shl(1, bit) < WORD_LIMIT && Shl(1, bit) == Pow2(bit)
  {
    ShlIsTimes(1, bit);
    Pow2Values();
  }

  lemma OrIsWord(x: word, y: word)
    ensures Or(x, y) < WORD_LIMIT
  {
    Pow2Values();
    OrSplit(32, 0, x, 0, y);
  }

  lemma AndIsSmaller(x: nat, y: nat)
    ensures And(x, y) <= x
  {
  }

  /** `SET_BIT`: positions past the operand are ignored. */
  function SetBit(x: word, bit: word): word
  {
    if bit > 31 then x
    else
      PowerIsWord(bit);
      OrIsWord(x, Shl(1, bit));
      Or(x, Shl(1, bit))
  }

  /** `CLEAR_BIT`: positions past the operand are ignored. */
  function ClearBit(x: word, bit: word): word
  {
    if bit > 31 then x
    else
      PowerIsWord(bit);
      AndIsSmaller(x, Not(Shl(1, bit)));
      And(x, Not(Shl(1, bit)))
  }

  /** `x` with the `len` bits from position `bit` on replaced by the low bits of `value`. */
  function Field(x: nat, bit: nat, value: nat, len: nat): nat
    decreases bit, len, x
  {
    if bit > 0 then 2 * Field(x / 2, bit - 1, value, len) + x % 2
    else if len > 0 then 2 * Field(x / 2, 0, value / 2, len - 1) + value % 2
    else x
  }

  /** What `SET_BIT_TO` leaves in the bit field. */
  function SetField(x: word, bit: word, value: word, len: word): word
  {
    if bit > 31 then x
    else if bit + len <= 32 then
      FieldIsWord(x, bit, value, len);
      Field(x, bit, value, len)
    else Field(x, bit, value, len) % WORD_LIMIT
  }

  lemma FieldIsWord(x: word, bit: word, value: word, len: word)
    requires bit + len <= 32
    ensures Field(x, bit, value, len) < WORD_LIMIT
  {
    Pow2Values();
    FieldBelow(x, bit, value, len, 32);
  }

  /** Exactly the bits of the field change. */
  lemma {:induction false} FieldBits(x: nat, bit: nat, value: nat, len: nat, i: nat)
    ensures Bit(Field(x, bit, value, len), i) == if bit <= i < bit + len then Bit(value, i - bit) else Bit(x, i)
    decreases bit, len
  {
    var r := Field(x, bit, value, len);
    if bit > 0 {
      assert r / 2 == Field(x / 2, bit - 1, value, len) && r % 2 == x % 2;
      if i > 0 {
        FieldBits(x / 2, bit - 1, value, len, i - 1);
      }
    } else if len > 0 {
      assert r / 2 == Field(x / 2, 0, value / 2, len - 1) && r % 2 == value % 2;
      if i > 0 {
        FieldBits(x / 2, 0, value / 2, len - 1, i - 1);
      }
    }
  }

  lemma OrHalves(x: nat, y: nat)
    ensures Or(x, y) / 2 == Or(x / 2, y / 2) && (Or(x, y) % 2 == 1 <==> x % 2 == 1 || y % 2 == 1)
  {
  }

  lemma AndHalves(x: nat, y: nat)
    ensures And(x, y) / 2 == And(x / 2, y / 2) && (And(x, y) % 2 == 1 <==> x % 2 == 1 && y % 2 == 1)
  {
  }

  lemma {:induction false} OrBits(x: nat, y: nat, i: nat)
    ensures Bit(Or(x, y), i) == (Bit(x, i) || Bit(y, i))
    decreases i
  {
    OrHalves(x, y);
    if i > 0 {
      OrBits(x / 2, y / 2, i - 1);
    }
  }

  lemma {:induction false} AndBits(x: nat, y: nat, i: nat)
    ensures Bit(And(x, y), i) == (Bit(x, i) && Bit(y, i))
    decreases i
  {
    AndHalves(x, y);
    if i > 0 {
      AndBits(x / 2, y / 2, i - 1);
    }
  }

  lemma {:induction false} ShlBits(x: nat, k: nat, i: nat)
    ensures Bit(Shl(x, k), i) == (k <= i && Bit(x, i - k))
    decreases k
  {
    if k > 0 && i > 0 {
      ShlBits(x, k - 1, i - 1);
    }
  }

  lemma HalfComplement(p: nat, x: nat)
    requires x < 2 * p
    ensures (2 * p - 1 - x) / 2 == p - 1 - x / 2 && ((2 * p - 1 - x) % 2 == 1 <==> x % 2 == 0)
  {
  }

  lemma {:induction false} ComplementBits(x: nat, k: nat, i: nat)
    requires x < Pow2(k) && i < k
    ensures Bit(Pow2(k) - 1 - x, i) == !Bit(x, i)
  {
    HalfComplement(Pow2(k - 1), x);
    if i > 0 {
      ComplementBits(x / 2, k - 1, i - 1);
    }
  }

  /** The low `k` bits. */
  function Low(x: nat, k: nat): nat
  {
    if k == 0 then 0 else 2 * Low(x / 2, k - 1) + x % 2
  }

  lemma {:induction false} LowIsRemainder(x: nat, k: nat)
    ensures Low(x, k) == x % Pow2(k)
    decreases k
  {
    if k > 0 {
      LowIsRemainder(x / 2, k - 1);
      HalfRemainder(x, k);
    }
  }

  lemma {:induction false} BitsOfLow(x: nat, k: nat, i: nat)
    ensures Bit(Low(x, k), i) == (i < k && Bit(x, i))
    decreases k
  {
    if k == 0 {
      ZeroBits(i);
    } else if i > 0 {
      BitsOfLow(x / 2, k - 1, i - 1);
    }
  }

  lemma LowBits(x: nat, k: nat, i: nat)
    ensures Bit(x % Pow2(k), i) == (i < k && Bit(x, i))
  {
    LowIsRemainder(x, k);
    BitsOfLow(x, k, i);
  }

  lemma ZeroBits(i: nat)
    ensures !Bit(0, i)
  {
  }

  lemma HalfRemainder(v: nat, k: nat)
    requires k > 0
    ensures v % Pow2(k) == 2 * (v / 2 % Pow2(k - 1)) + v % 2
  {
    var q, r := Parts(v / 2, k - 1);
    ShlIsTimes(q, k - 1);
    ShlIsTimes(q, k);
    Remainder(v / 2, Pow2(k - 1), q, r);
    Remainder(v, Pow2(k), q, 2 * r + v % 2);
  }

  /** A word is determined by its 32 bits. */
  lemma {:induction false} SameBits(x: nat, y: nat, k: nat)
    requires x < Pow2(k) && y < Pow2(k)
    requires forall i: nat :: i < k ==> Bit(x, i) == Bit(y, i)
    ensures x == y
  {
    if k > 0 {
      assert Bit(x, 0) == Bit(y, 0);
      forall i: nat | i < k - 1
        ensures Bit(x / 2, i) == Bit(y / 2, i)
      {
        assert Bit(x, i + 1) == Bit(y, i + 1);
      }
      SameBits(x / 2, y / 2, k - 1);
    }
  }

  lemma ClearBitBits(x: word, bit: word, i: nat)
    requires i < 32
    ensures Bit(ClearBit(x, bit), i) == (i != bit && Bit(x, i))
  {
    if bit <= 31 {
      PowerIsWord(bit);
      Pow2Values();
      AndBits(x, Not(Shl(1, bit)), i);
      ComplementBits(Shl(1, bit), 32, i);
      ShlBits(1, bit, i);
      if i > bit {
        ZeroBits(i - bit - 1);
      }
    }
  }

  /** After `SET_BIT_TO(x, bit, value, len)` bit `i` is the value's inside the field and the old one outside. */
  lemma SetFieldBits(x: word, bit: word, value: word, len: word, i: nat)
    requires bit <= 31 && i < 32
    ensures Bit(SetField(x, bit, value, len), i) == if bit <= i < bit + len then Bit(value, i - bit) else Bit(x, i)
  {
    Pow2Values();
    FieldBits(x, bit, value, len, i);
    LowBits(Field(x, bit, value, len), 32, i);
  }

  lemma {:induction false} FieldParts(h: nat, m: nat, l: nat, bit: nat, value: nat, len: nat)
    requires m < Pow2(len) && l < Pow2(bit)
    ensures Field(Shl(Shl(h, len) + m, bit) + l, bit, value, len) == Shl(Shl(h, len) + value % Pow2(len), bit) + l
    decreases bit, len
  {
    if bit > 0 {
      FieldParts(h, m, l / 2, bit - 1, value, len);
      var x := Shl(Shl(h, len) + m, bit) + l;
      assert x / 2 == Shl(Shl(h, len) + m, bit - 1) + l / 2 && x % 2 == l % 2;
    } else if len > 0 {
      FieldParts(h, m / 2, 0, 0, value / 2, len - 1);
      var x := Shl(h, len) + m;
      assert x / 2 == Shl(h, len - 1) + m / 2;
      HalfRemainder(value, len);
    }
  }

  /**
   * The loop of `SET_BIT_TO`: clear the touched bits one by one, then or in the masked value.
   * C defines `1 << value_len` as a signed shift, hence the bound on the length.
   */
  method SetBitTo(bitfield: word, bit: word, value: word, value_len: word) returns (r: word)
    requires value_len < 31
    ensures r == SetField(bitfield, bit, value, value_len)
  {
    r := bitfield;
    if bit > 31 {
      return;
    }
    var i := bit;
    while i < bit + value_len
      invariant bit <= i <= bit + value_len
      invariant forall j: nat :: j < 32 ==> Bit(r, j) == (!(bit <= j < i) && Bit(bitfield, j))
    {
      forall j: nat | j < 32
        ensures Bit(ClearBit(r, i), j) == (j != i && Bit(r, j))
      {
        ClearBitBits(r, i, j);
      }
      r := ClearBit(r, i);
      i := i + 1;
    }
    Pow2Values();
    AndIsSmaller(value, Pow2(value_len) - 1);
    var masked: word := And(value, Pow2(value_len) - 1);
    var shifted: word := Shl(masked, bit) % WORD_LIMIT;
    OrIsWord(r, shifted);
    ghost var cleared := r;
    r := Or(r, shifted);
    forall j: nat | j < 32
      ensures Bit(r, j) == Bit(SetField(bitfield, bit, value, value_len), j)
    {
      OrBits(cleared, shifted, j);
      MaskLow(value, value_len);
      LowBits(Shl(masked, bit), 32, j);
      ShlBits(masked, bit, j);
      if j >= bit {
        LowBits(value, value_len, j - bit);
      }
      SetFieldBits(bitfield, bit, value, value_len, j);
    }
    SameBits(r, SetField(bitfield, bit, value, value_len), 32);
  }

  /** Setting a bit that is clear. */
  lemma SetClearBit(h: nat, l: nat, bit: word)
    requires bit <= 31 && l < Pow2(bit) && h % 2 == 0 && Shl(h, bit) + l < WORD_LIMIT
    ensures SetBit(Shl(h, bit) + l, bit) == Shl(h + 1, bit) + l
  {
    PowerIsWord(bit);
    OrSplit(bit, h, l, 1, 0);
    assert Or(h / 2, 0) == h / 2;
  }

  /** `SET_BIT_TO` on a field `m` between the bits above it, `h`, and those below it, `l`. */
  lemma SetFieldValue(h: nat, m: nat, l: nat, bit: word, value: word, len: word)
    requires bit <= 31 && bit + len <= 32 && m < Pow2(len) && l < Pow2(bit)
    requires Shl(Shl(h, len) + m, bit) + l < WORD_LIMIT
    ensures SetField(Shl(Shl(h, len) + m, bit) + l, bit, value, len) == Shl(Shl(h, len) + value % Pow2(len), bit) + l
  {
    var x := Shl(Shl(h, len) + m, bit) + l;
    FieldParts(h, m, l, bit, value, len);
    Pow2Values();
    FieldBelow(x, bit, value, len, 32);
  }

  lemma {:induction false} FieldBelow(x: nat, bit: nat, value: nat, len: nat, k: nat)
    requires x < Pow2(k) && bit + len <= k
    ensures Field(x, bit, value, len) < Pow2(k)
    decreases bit, len
  {
    if bit > 0 {
      FieldBelow(x / 2, bit - 1, value, len, k - 1);
    } else if len > 0 {
      FieldBelow(x / 2, 0, value / 2, len - 1, k - 1);
    }
  }
}
