/** Bit fields inside a CMOS byte, and the binary-coded decimal of the clock.
    Bytes are numbers; the masks and shifts work on the bits of a number. */
module BitFields {
  import opened CmosTypes

  type Bits = bv8

  function LowMask(size: Bits): Bits
    requires 1 <= size <= 8
  {
    0xff >> (8 - size)
  }

  function EncodeBits(v: Bits, offset: Bits): Bits
    requires offset <= 7
  {
    v << offset
  }

  function DecodeBits(b: Bits, offset: Bits, size: Bits): Bits
    requires offset <= 7 && 1 <= size <= 8
  {
    (b >> offset) & LowMask(size)
  }

  function ClobberBits(offset: Bits, size: Bits): Bits
    requires offset <= 7 && 1 <= size <= 8
  {
    LowMask(size) << offset
  }

  predicate OverflowBits(v: Bits, size: Bits)
    requires 1 <= size <= 8
  {
    v & !LowMask(size) != 0
  }

  function MergeBits(prior: Bits, mask: Bits, v: Bits): Bits {
    (prior & !mask) | v
  }

  lemma FieldRoundTripBits(b: Bits, v: Bits, offset: Bits, size: Bits)
    requires 1 <= size <= 8 && offset <= 8 - size && !OverflowBits(v, size)
    ensures var m := MergeBits(b, ClobberBits(offset, size), EncodeBits(v, offset));
      && DecodeBits(m, offset, size) == v
      && m & !ClobberBits(offset, size) == b & !ClobberBits(offset, size)
  {
  }

  lemma EncodedStaysInMask(v: Bits, offset: Bits, size: Bits)
    requires 1 <= size <= 8 && offset <= 8 - size && !OverflowBits(v, size)
    ensures EncodeBits(v, offset) & !ClobberBits(offset, size) == 0
  {
  }

  lemma MergeOutsideMask(b: Bits, v: Bits, mask: Bits, other: Bits)
    requires v & !mask == 0 && mask & other == 0
    ensures MergeBits(b, mask, v) & other == b & other
  {
  }

  lemma DecodeReadsMask(b: Bits, offset: Bits, size: Bits)
    requires 1 <= size <= 8 && offset <= 8 - size
    ensures DecodeBits(b, offset, size) == (b & ClobberBits(offset, size)) >> offset
  {
  }

  lemma FieldsDoNotInterfereBits(b: Bits, v: Bits, o: Bits, s: Bits, o': Bits, s': Bits)
    requires 1 <= s <= 8 && o <= 8 - s && 1 <= s' <= 8 && o' <= 8 - s'
    requires ClobberBits(o, s) & ClobberBits(o', s') == 0 && !OverflowBits(v, s)
    ensures DecodeBits(MergeBits(b, ClobberBits(o, s), EncodeBits(v, o)), o', s') == DecodeBits(b, o', s')
  {
    EncodedStaysInMask(v, o, s);
    MergeOutsideMask(b, EncodeBits(v, o), ClobberBits(o, s), ClobberBits(o', s'));
    DecodeReadsMask(b, o', s');
    DecodeReadsMask(MergeBits(b, ClobberBits(o, s), EncodeBits(v, o)), o', s');
  }

  // ---- The same on numbers --------------------------------------------------------

  /** The binary digits of a number, most significant first. */
  function ToBits(b: byte): Bits {
    if b == 0 then 0 else if b % 2 == 0 then ToBits(b / 2) << 1 else (ToBits(b / 2) << 1) | 1
  }

  function Number(b: Bits): byte { b as nat }

  lemma Doubling(b: Bits)
    requires Number(b) < 128
    ensures Number(b << 1) == 2 * Number(b) && Number((b << 1) | 1) == 2 * Number(b) + 1
  {
    assert b < 128;
  }

  lemma {:induction false} BitsToNumber(b: byte)
    ensures Number(ToBits(b)) == b
  {
    hide Number;
    if b > 0 {
      BitsToNumber(b / 2);
      Doubling(ToBits(b / 2));
    } else {
      ZeroBits();
    }
  }

  lemma ZeroBits()
    ensures Number(0) == 0
  {
  }

  lemma NumberIsInjective(b: Bits, b': Bits)
    requires Number(b) == Number(b')
    ensures b == b'
  {
    assert (b as nat) as Bits == b;
    assert (b' as nat) as Bits == b';
  }

  lemma NumberToBits(b: Bits)
    ensures ToBits(Number(b)) == b
  {
    BitsToNumber(Number(b));
    NumberIsInjective(ToBits(Number(b)), b);
  }

  /** Offsets and sizes keep their order as bit vectors. */
  lemma ProperFieldBits(t: Token)
    requires ProperField(t)
    ensures 1 <= ToBits(t.size) <= 8 && ToBits(t.offset) <= 8 - ToBits(t.size)
  {
    BitsToNumber(t.size);
    BitsToNumber(t.offset);
    SubtractFromEight(ToBits(t.size), ToBits(t.offset));
  }

  lemma SubtractFromEight(size: Bits, offset: Bits)
    requires 1 <= Number(size) && Number(offset) + Number(size) <= 8
    ensures 1 <= size <= 8 && offset <= 8 - size
  {
  }

  predicate Overflows(v: byte, t: Token)
    requires ProperField(t)
  {
    ProperFieldBits(t);
    OverflowBits(ToBits(v), ToBits(t.size))
  }

  function Encode(v: byte, t: Token): byte
    requires ProperField(t)
  {
    ProperFieldBits(t);
    Number(EncodeBits(ToBits(v), ToBits(t.offset)))
  }

  function Decode(b: byte, t: Token): byte
    requires ProperField(t)
  {
    ProperFieldBits(t);
    Number(DecodeBits(ToBits(b), ToBits(t.offset), ToBits(t.size)))
  }

  function FieldMask(t: Token): byte
    requires ProperField(t)
  {
    ProperFieldBits(t);
    Number(ClobberBits(ToBits(t.offset), ToBits(t.size)))
  }

  /** The byte left by writing the bits `v` under `mask`. */
  function Merge(prior: byte, mask: byte, v: byte): byte {
    Number(MergeBits(ToBits(prior), ToBits(mask), ToBits(v)))
  }

  /** The bits of `b` outside the field of `t`. */
  function OutsideField(b: byte, t: Token): byte
    requires ProperField(t)
  {
    Number(ToBits(b) & !ToBits(FieldMask(t)))
  }

  /** The byte left by writing `v` to the field of `t`. */
  function Insert(prior: byte, t: Token, v: byte): byte
    requires ProperField(t)
  {
    Merge(prior, FieldMask(t), Encode(v, t))
  }

  predicate DisjointFields(t: Token, t': Token)
    requires ProperField(t) && ProperField(t')
  {
    ToBits(FieldMask(t)) & ToBits(FieldMask(t')) == 0
  }

  /** A field reads back what was written to it, and the other bits stay. */
  lemma FieldRoundTrip(b: byte, v: byte, t: Token)
    requires ProperField(t) && !Overflows(v, t)
    ensures Decode(Insert(b, t, v), t) == v
    ensures OutsideField(Insert(b, t, v), t) == OutsideField(b, t)
  {
    hide Number;
    ProperFieldBits(t);
    var o, s := ToBits(t.offset), ToBits(t.size);
    FieldRoundTripBits(ToBits(b), ToBits(v), o, s);
    NumberToBits(ClobberBits(o, s));
    NumberToBits(EncodeBits(ToBits(v), o));
    NumberToBits(MergeBits(ToBits(b), ClobberBits(o, s), EncodeBits(ToBits(v), o)));
    BitsToNumber(v);
  }

  /** Writing one field does not disturb a field that shares no bit with it. */
  lemma FieldsDoNotInterfere(b: byte, v: byte, t: Token, t': Token)
    requires ProperField(t) && ProperField(t') && DisjointFields(t, t') && !Overflows(v, t)
    ensures Decode(Insert(b, t, v), t') == Decode(b, t')
  {
    hide Number;
    ProperFieldBits(t);
    ProperFieldBits(t');
    var o, s, o', s' := ToBits(t.offset), ToBits(t.size), ToBits(t'.offset), ToBits(t'.size);
    NumberToBits(ClobberBits(o, s));
    NumberToBits(ClobberBits(o', s'));
    NumberToBits(EncodeBits(ToBits(v), o));
    NumberToBits(MergeBits(ToBits(b), ClobberBits(o, s), EncodeBits(ToBits(v), o)));
    FieldsDoNotInterfereBits(ToBits(b), ToBits(v), o, s, o', s');
  }

  lemma WholeByteBits(b: Bits, v: Bits)
    ensures !OverflowBits(v, 8) && EncodeBits(v, 0) == v && ClobberBits(0, 8) == 0xff
    ensures MergeBits(b, 0xff, v) == v && DecodeBits(b, 0, 8) == b
  {
  }

  lemma EightBits()
    ensures ToBits(0) == 0 && ToBits(8) == 8 && ToBits(255) == 0xff
  {
    BitsToNumber(8);
    BitsToNumber(255);
    NumberIsInjective(ToBits(8), 8);
    NumberIsInjective(ToBits(255), 0xff);
  }

  lemma MergeAllBits(b: byte, v: byte)
    ensures Merge(b, ALL_BITS, v) == v
  {
    hide Number;
    EightBits();
    WholeByteBits(ToBits(b), ToBits(v));
    BitsToNumber(v);
  }

  /** An 8-bit field is the whole byte. */
  lemma WholeByte(b: byte, v: byte, t: Token)
    requires t.size == 8 && t.offset == 0
    ensures !Overflows(v, t) && Insert(b, t, v) == v && Decode(b, t) == b
  {
    hide Number;
    ProperFieldBits(t);
    EightBits();
    WholeByteBits(ToBits(b), ToBits(v));
    NumberToBits(0xff);
    BitsToNumber(b);
    BitsToNumber(v);
  }

  // ---- Single bits ------------------------------------------------------------------

  function SetBits(b: byte, m: Bits): byte { Number(ToBits(b) | m) }

  function ClearBits(b: byte, m: Bits): byte { Number(ToBits(b) & !m) }

  function Masked(b: byte, m: Bits): byte { Number(ToBits(b) & m) }

  // ---- Binary-coded decimal ---------------------------------------------------

  function DecToBcd(d: byte): byte { ((d / 10) * 16 + d % 10) % 256 }

  function BcdToDec(b: byte): byte { (b / 16) * 10 + b % 16 }

  /** The documentation promises two decimal digits; the code keeps every value
      below 160 and loses every value from 160 on. */
  lemma BcdRoundTrip(d: byte)
    ensures BcdToDec(DecToBcd(d)) == d <==> d < 160
  {
  }

  /** Two decimal digits become two hexadecimal digits, and back. */
  lemma BcdDigits(high: nat, low: nat)
    requires high < 10 && low < 10
    ensures DecToBcd(10 * high + low) == 16 * high + low
    ensures BcdToDec(16 * high + low) == 10 * high + low
  {
  }

  // ---- What a field is, in arithmetic -------------------------------------------------

  function Pow2(n: nat): (p: nat)
    ensures p >= 1
  {
    if n == 0 then 1 else 2 * Pow2(n - 1)
  }
}
