/** What a bit field is, in arithmetic: a field of `size` bits at `offset` is the byte
    divided by a power of two and reduced by another. */
module FieldArithmetic {
  import opened CmosTypes
  import opened BitFields

  lemma ShiftHalves(b: Bits)
    ensures Number(b >> 1) == Number(b) / 2 && Number(b & 1) == Number(b) % 2
  {
  }

  lemma NextBits(k: byte)
    requires k < 255
    ensures ToBits(k + 1) == ToBits(k) + 1
  {
    BitsToNumber(k);
    BitsToNumber(k + 1);
    Successor(ToBits(k));
    NumberIsInjective(ToBits(k + 1), ToBits(k) + 1);
  }

  lemma Successor(b: Bits)
    requires Number(b) < 255
    ensures Number(b + 1) == Number(b) + 1
  {
  }

  lemma ShiftOnce(x: Bits, n: Bits)
    requires n < 8
    ensures x >> (n + 1) == (x >> n) >> 1
  {
  }

  /** The two operations by name, so that proofs need not look inside. */
  function Quot(b: nat, k: nat): int { b / Pow2(k) }

  function Rem(b: nat, k: nat): int { b % Pow2(k) }

  lemma Powers()
    ensures Pow2(0) == 1 && Pow2(1) == 2 && Pow2(2) == 4 && Pow2(3) == 8 && Pow2(4) == 16
    ensures Pow2(5) == 32 && Pow2(6) == 64 && Pow2(7) == 128 && Pow2(8) == 256
  {
  }

  lemma HalfOfQuotient(b: nat, k: nat)
    requires k < 8
    ensures Quot(b, k) / 2 == Quot(b, k + 1)
  {
    hide Pow2;
    Powers();
  }

  /** Shifting right is dividing. */
  lemma {:induction false} ShiftIsDivision(b: byte, k: nat)
    requires k <= 8
    ensures ToBits(k) <= 8 && Number(ToBits(b) >> ToBits(k)) == Quot(b, k)
  {
    hide Number, Quot;
    if k == 0 {
      BitsToNumber(b);
      QuotByOne(b);
    } else {
      ShiftIsDivision(b, k - 1);
      NextBits(k - 1);
      SmallBits(k);
      SmallBits(k - 1);
      ShiftOnce(ToBits(b), ToBits(k - 1));
      ShiftHalves(ToBits(b) >> ToBits(k - 1));
      HalfOfQuotient(b, k - 1);
    }
  }

  lemma QuotByOne(b: nat)
    ensures Quot(b, 0) == b && Rem(b, 0) == 0
  {
  }

  lemma SmallBits(k: nat)
    requires k <= 8
    ensures ToBits(k) <= 8 && (k < 8 ==> ToBits(k) < 8) && (k >= 1 ==> ToBits(k) >= 1)
  {
    BitsToNumber(k);
  }

  lemma MaskOnce(x: Bits, n: Bits)
    requires 1 <= n < 8
    ensures x & LowMask(n + 1) == (((x >> 1) & LowMask(n)) << 1) | (x & 1)
  {
  }

  lemma LowMaskOne(x: Bits)
    ensures x & LowMask(1) == x & 1
  {
  }

  lemma HalfIsSmall(x: Bits, n: Bits)
    requires 1 <= n < 8
    ensures (x >> 1) & LowMask(n) < 128
  {
  }

  lemma JoinLowBit(y: Bits, x: Bits)
    requires y < 128
    ensures Number((y << 1) | (x & 1)) == 2 * Number(y) + Number(x & 1)
  {
  }

  lemma MaskStep(x: Bits, n: Bits)
    requires 1 <= n < 8
    ensures Number(x & LowMask(n + 1)) == 2 * Number((x >> 1) & LowMask(n)) + Number(x) % 2
  {
    hide Number, LowMask;
    MaskOnce(x, n);
    HalfIsSmall(x, n);
    JoinLowBit((x >> 1) & LowMask(n), x);
    ShiftHalves(x);
  }

  lemma MaskFirst(x: Bits)
    ensures ToBits(1) == 1 && Number(x & LowMask(1)) == Rem(Number(x), 1)
  {
    hide Number, LowMask, Rem;
    ZeroAndOne();
    LowMaskOne(x);
    ShiftHalves(x);
    RemByTwo(Number(x));
  }

  /** The bits of a field size, next to those of the size below it. */
  lemma SizeBelow(n: Bits, s: nat)
    requires Number(n) == s && 2 <= s <= 8
    ensures Number(n - 1) == s - 1 && 1 <= n - 1 < 8 && n == (n - 1) + 1
  {
  }

  lemma SizeOne(n: Bits)
    requires Number(n) == 1
    ensures n == 1
  {
  }

  lemma SizeRange(n: Bits, s: nat)
    requires Number(n) == s && 1 <= s <= 8
    ensures 1 <= n <= 8
  {
  }

  lemma {:induction false} MaskByNumber(x: Bits, n: Bits, s: nat)
    requires 1 <= n <= 8 && Number(n) == s && 1 <= s <= 8
    ensures Number(x & LowMask(n)) == Rem(Number(x), s)
    decreases s
  {
    hide Number, Rem, LowMask;
    if s == 1 {
      SizeOne(n);
      MaskFirst(x);
    } else {
      SizeBelow(n, s);
      MaskByNumber(x >> 1, n - 1, s - 1);
      MaskStep(x, n - 1);
      ShiftHalves(x);
      RemainderByHalves(Number(x), s - 1);
    }
  }

  /** Masking the low bits is taking a remainder. */
  lemma MaskIsRemainder(x: Bits, s: nat)
    requires 1 <= s <= 8
    ensures 1 <= ToBits(s) <= 8 && Number(x & LowMask(ToBits(s))) == Rem(Number(x), s)
  {
    hide Number, Rem, LowMask, ToBits;
    BitsToNumber(s);
    SizeRange(ToBits(s), s);
    MaskByNumber(x, ToBits(s), s);
  }

  lemma ZeroAndOne()
    ensures ToBits(0) == 0 && ToBits(1) == 1
  {
  }

  lemma RemByTwo(x: nat)
    ensures Rem(x, 1) == x % 2
  {
    Powers();
  }

  lemma RemainderIsUnique(x: nat, q: nat, p: nat, r: nat)
    requires r < p && x == q * p + r
    ensures x % p == r
  {
    var d := x / p - q;
    assert d * p == r - x % p;
  }

  lemma RemainderByHalves(x: nat, k: nat)
    requires 1 <= k < 8
    ensures Rem(x, k + 1) == 2 * Rem(x / 2, k) + x % 2
  {
    var p, h := Pow2(k), x / 2;
    assert h == h / p * p + h % p;
    assert h / p * (2 * p) == 2 * (h / p * p);
    RemainderIsUnique(x, h / p, 2 * p, 2 * (h % p) + x % 2);
  }

  /** Reading a field. */
  lemma DecodeIsField(b: byte, t: Token)
    requires ProperField(t)
    ensures Decode(b, t) == b / Pow2(t.offset) % Pow2(t.size)
  {
    hide Number, Pow2, LowMask, ToBits;
    ProperFieldBits(t);
    ShiftIsDivision(b, t.offset);
    MaskIsRemainder(ToBits(b) >> ToBits(t.offset), t.size);
  }

  lemma OverflowIsShift(v: Bits, size: Bits)
    requires 1 <= size <= 8
    ensures OverflowBits(v, size) <==> v >> size != 0
  {
  }

  lemma QuotIsZero(v: nat, k: nat)
    requires k <= 8
    ensures Quot(v, k) == 0 <==> v < Pow2(k)
  {
    hide Pow2;
    Powers();
  }

  lemma NumberIsZero(b: Bits)
    ensures Number(b) == 0 <==> b == 0
  {
  }

  /** A value is refused exactly when it needs more bits than the field has. */
  lemma OverflowsIff(v: byte, t: Token)
    requires ProperField(t)
    ensures Overflows(v, t) <==> v >= Pow2(t.size)
  {
    hide Number, Pow2, OverflowBits, ToBits, Quot;
    ProperFieldBits(t);
    OverflowIsShift(ToBits(v), ToBits(t.size));
    ShiftIsDivision(v, t.size);
    NumberIsZero(ToBits(v) >> ToBits(t.size));
    QuotIsZero(v, t.size);
  }

  lemma MergeKeepsHigh(b: Bits, v: Bits, o: Bits, s: Bits)
    requires 1 <= s <= 8 && o <= 8 - s && !OverflowBits(v, s)
    ensures MergeBits(b, ClobberBits(o, s), EncodeBits(v, o)) >> (o + s) == b >> (o + s)
  {
  }

  lemma MergeKeepsLow(b: Bits, v: Bits, o: Bits, s: Bits)
    requires 1 <= s <= 8 && 1 <= o <= 8 - s && !OverflowBits(v, s)
    ensures MergeBits(b, ClobberBits(o, s), EncodeBits(v, o)) & LowMask(o) == b & LowMask(o)
  {
  }

  /** Writing a field: the bits above and below it stay, and between them is the value.
      The three parts determine the byte. */
  lemma InsertIsField(b: byte, t: Token, v: byte)
    requires ProperField(t) && !Overflows(v, t)
    ensures Insert(b, t, v) / Pow2(t.offset + t.size) == b / Pow2(t.offset + t.size)
    ensures Insert(b, t, v) / Pow2(t.offset) % Pow2(t.size) == v
    ensures Insert(b, t, v) % Pow2(t.offset) == b % Pow2(t.offset)
  {
    hide Insert, Decode, Overflows, Pow2;
    FieldRoundTrip(b, v, t);
    DecodeIsField(Insert(b, t, v), t);
    InsertKeepsHigh(b, t, v);
    InsertKeepsLow(b, t, v);
  }

  lemma InsertBits(b: byte, t: Token, v: byte)
    requires ProperField(t) && !Overflows(v, t)
    ensures var o, s := ToBits(t.offset), ToBits(t.size);
      && 1 <= s <= 8 && o <= 8 - s && !OverflowBits(ToBits(v), s)
      && ToBits(Insert(b, t, v)) == MergeBits(ToBits(b), ClobberBits(o, s), EncodeBits(ToBits(v), o))
  {
    hide Number, LowMask, MergeBits, ClobberBits, EncodeBits, ToBits, OverflowBits;
    ProperFieldBits(t);
    var o, s := ToBits(t.offset), ToBits(t.size);
    NumberToBits(ClobberBits(o, s));
    NumberToBits(EncodeBits(ToBits(v), o));
    NumberToBits(MergeBits(ToBits(b), ClobberBits(o, s), EncodeBits(ToBits(v), o)));
  }

  lemma InsertKeepsHigh(b: byte, t: Token, v: byte)
    requires ProperField(t) && !Overflows(v, t)
    ensures Quot(Insert(b, t, v), t.offset + t.size) == Quot(b, t.offset + t.size)
  {
    hide Insert, MergeBits, ClobberBits, EncodeBits, ToBits, OverflowBits, Overflows, Quot, Number;
    InsertBits(b, t, v);
    AddBits(t);
    MergeKeepsHigh(ToBits(b), ToBits(v), ToBits(t.offset), ToBits(t.size));
    ShiftIsDivision(b, t.offset + t.size);
    ShiftIsDivision(Insert(b, t, v), t.offset + t.size);
  }

  lemma InsertKeepsLow(b: byte, t: Token, v: byte)
    requires ProperField(t) && !Overflows(v, t)
    ensures Rem(Insert(b, t, v), t.offset) == Rem(b, t.offset)
  {
    hide Insert, MergeBits, ClobberBits, EncodeBits, ToBits, OverflowBits, Overflows, Rem, Number, LowMask;
    QuotByOne(b);
    QuotByOne(Insert(b, t, v));
    if t.offset > 0 {
      InsertBits(b, t, v);
      SmallBits(t.offset);
      MergeKeepsLow(ToBits(b), ToBits(v), ToBits(t.offset), ToBits(t.size));
      MaskIsRemainder(ToBits(b), t.offset);
      MaskIsRemainder(ToBits(Insert(b, t, v)), t.offset);
      BitsToNumber(b);
      BitsToNumber(Insert(b, t, v));
    }
  }

  lemma AddBits(t: Token)
    requires ProperField(t)
    ensures ToBits(t.offset + t.size) == ToBits(t.offset) + ToBits(t.size)
  {
    BitsToNumber(t.offset);
    BitsToNumber(t.size);
    BitsToNumber(t.offset + t.size);
    SumOfSmall(ToBits(t.offset), ToBits(t.size));
    NumberIsInjective(ToBits(t.offset + t.size), ToBits(t.offset) + ToBits(t.size));
  }

  lemma SumOfSmall(a: Bits, b: Bits)
    requires Number(a) + Number(b) <= 8
    ensures Number(a + b) == Number(a) + Number(b)
  {
  }
}
