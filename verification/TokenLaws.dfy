/** What one write does to the view: the store laws of tokens, and exactly when a
    write keeps the checksum invariant. */
module TokenLaws {
  import opened CmosTypes
  import opened BitFields
  import opened CmosModel
  import opened Coherence

  /** Register `a` gets the new value; of the other registers only the checksum may move. */
  lemma ReplaceView(s: State, a: nat, after: byte, r: nat)
    requires Steady(s) && Exists(s, Reach(s, a))
    requires r == a || !IsChecksumRegister(s.cfg, r)
    ensures View(Replace(s, a, Reach(s, a), after), r) == if r == a then after else View(s, r)
  {
    hide StatusLayout;
    var s1 := Poke(s, Reach(s, a), after);
    assert View(s1, r) == if r == a then after else View(s, r);
    if ForceNoChecksum !in s.status {
      FlipKeepsView(s1, {AddressIsChecksummed}, !Excluded(s.cfg, a), r);
      if !Excluded(s.cfg, a) {
        hide View;
        var s2 := Flip(s1, {AddressIsChecksummed}, true);
        SteadinessKept(s, s2);
        StoreChecksumEffect(s2, UpdatedChecksum(StoredChecksum(s), Peek(s, Reach(s, a), 0), after));
      }
    }
  }

  lemma StoreChecksumShape(s: State, w: word)
    ensures SameShape(s, StoreChecksum(s, w)) && StoreChecksum(s, w).status == s.status - {ForceNoChecksum}
  {
    hide Reach;
  }

  lemma ReplaceShape(s: State, a: nat, c: Cell, after: byte)
    ensures var s' := Replace(s, a, c, after);
      && SameShape(s, s') && SameRouting(s, s')
      && s'.status - {AddressIsChecksummed} == s.status - {AddressIsChecksummed}
  {
    hide StoredChecksum, Excluded;
    var s2 := Flip(Poke(s, c, after), {AddressIsChecksummed}, true);
    var w := UpdatedChecksum(StoredChecksum(s), Peek(s, c, 0), after);
    StoreChecksumShape(s2, w);
    hide StoreChecksum;
  }

  lemma ReadFieldIsView(s: State, t: Token, initial: byte)
    requires ProperField(t) && Exists(s, Reach(s, t.address))
    ensures ReadField(s, t, initial) == Decode(View(s, t.address), t)
  {
  }

  lemma WriteFieldIsReplace(s: State, t: Token, v: byte)
    requires ProperField(t) && !Overflows(v, t)
    requires Exists(s, Reach(s, t.address))
    ensures WriteField(s, t, v)
         == Replace(s, t.address, Reach(s, t.address), Insert(View(s, t.address), t, v))
  {
  }

  lemma WriteFieldView(s: State, t: Token, v: byte, r: nat)
    requires Steady(s) && ProperField(t) && !Overflows(v, t)
    requires Exists(s, Reach(s, t.address))
    requires r == t.address || !IsChecksumRegister(s.cfg, r)
    ensures View(WriteField(s, t, v), r)
         == if r == t.address then Insert(View(s, t.address), t, v) else View(s, r)
    ensures Reach(WriteField(s, t, v), r) == Reach(s, r)
    ensures SameShape(s, WriteField(s, t, v))
  {
    hide View, Insert, Replace, Reach, Layout;
    WriteFieldIsReplace(s, t, v);
    var after := Insert(View(s, t.address), t, v);
    ReplaceView(s, t.address, after, r);
    ReplaceShape(s, t.address, Reach(s, t.address), after);
    RoutingDecidesReach(s, WriteField(s, t, v), r);
  }

  // ---- Store laws -------------------------------------------------------------------

  /** A written field reads back, in either routing mode and despite the nested
      checksum write, and the rest of its byte is untouched. */
  lemma WriteThenRead(s: State, t: Token, v: byte, initial: byte)
    requires Steady(s) && ProperField(t) && !Overflows(v, t)
    requires Exists(s, Reach(s, t.address))
    ensures ReadField(WriteField(s, t, v), t, initial) == v
    ensures OutsideField(View(WriteField(s, t, v), t.address), t) == OutsideField(View(s, t.address), t)
  {
    hide View, Insert, Decode, WriteField, Reach, Layout, OutsideField;
    WriteFieldView(s, t, v, t.address);
    FieldRoundTrip(View(s, t.address), v, t);
    ReadFieldIsView(WriteField(s, t, v), t, initial);
  }

  /** Any other field, unless it overlaps or lies on the checksum, reads as before. */
  lemma WriteKeepsOtherFields(s: State, t: Token, v: byte, t': Token, initial: byte)
    requires Steady(s) && ProperField(t) && !Overflows(v, t) && ProperField(t')
    requires Exists(s, Reach(s, t.address)) && Exists(s, Reach(s, t'.address))
    requires if t'.address == t.address then DisjointFields(t, t')
             else !IsChecksumRegister(s.cfg, t'.address)
    ensures ReadField(WriteField(s, t, v), t', initial) == ReadField(s, t', initial)
  {
    hide View, Insert, Decode, WriteField, Reach, Layout, DisjointFields, Overflows;
    WriteFieldView(s, t, v, t'.address);
    ReadFieldIsView(s, t', initial);
    ReadFieldIsView(WriteField(s, t, v), t', initial);
    if t'.address == t.address {
      FieldsDoNotInterfere(View(s, t.address), v, t, t');
    }
  }

  lemma OneBitFits(t: Token)
    requires ProperField(t)
    ensures !Overflows(0, t) && !Overflows(1, t)
  {
    ProperFieldBits(t);
    BitsToNumber(1);
    NumberIsInjective(ToBits(1), 1);
    SmallBitsFit(ToBits(t.size));
  }

  lemma SmallBitsFit(size: Bits)
    requires 1 <= size <= 8
    ensures !OverflowBits(0, size) && !OverflowBits(1, size)
  {
  }

  /** Reading back is promised exactly when the router knows a place for the
      register: a write that goes nowhere reports success and is lost. */
  lemma ReadBackIff(s: State, t: Token, v: byte)
    requires Steady(s) && ProperField(t) && !Overflows(v, t) && t.address < |s.cells|
    ensures (forall initial: byte :: ReadField(WriteField(s, t, v), t, initial) == v)
       <==> Reach(s, t.address) != Nowhere
  {
    hide View, Insert, Decode, Layout, Overflows;
    if Reach(s, t.address) != Nowhere {
      assert Exists(s, Reach(s, t.address));
      forall initial: byte ensures ReadField(WriteField(s, t, v), t, initial) == v {
        WriteThenRead(s, t, v, initial);
      }
    } else {
      OneBitFits(t);
      var other: byte := if v == 0 then 1 else 0;
      var initial := Insert(0, t, other);
      FieldRoundTrip(0, other, t);
      assert WriteField(s, t, v) == s;
      assert ReadField(s, t, initial) == Decode(initial, t) == other != v;
    }
  }

  // ---- The invariant ------------------------------------------------------------------

  lemma ChecksumRegisterWrite(s: State, a: nat, after: byte)
    requires Steady(s) && IsChecksumRegister(s.cfg, a) && Coherent(s)
    ensures Coherent(Replace(s, a, Reach(s, a), after)) <==> after == View(s, a)
  {
    hide StatusLayout, NotChecksummed, Unmanaged;
    var s1 := Poke(s, Reach(s, a), after);
    var s2 := Replace(s, a, Reach(s, a), after);
    ManagedRegisterExists(s, a);
    forall r: nat ensures View(s1, r) == if r == a then after else View(s, r) { PokeView(s, a, after, r); }
    hide View, Poke, Reach;
    SumFrame(s, s1, s.cfg.last + 1);
    FlipUndisturbed(s1, {AddressIsChecksummed}, false);
    if ForceNoChecksum !in s.status { UndisturbedKeepsChecksum(s1, s2); }
  }

  /** From a coherent state, with checksum updating enabled, a write to a token's
      register keeps the invariant exactly when it does not change a checksum register. */
  lemma WriteKeepsCoherenceIff(s: State, a: nat, after: byte)
    requires Steady(s) && Coherent(s) && ForceNoChecksum !in s.status
    requires Managed(s.cfg, a) || Excluded(s.cfg, a)
    ensures Coherent(Replace(s, a, Reach(s, a), after))
       <==> (IsChecksumRegister(s.cfg, a) ==> after == View(s, a))
  {
    hide View, Replace, Reach, StatusLayout, NotChecksummed, Unmanaged;
    if IsChecksumRegister(s.cfg, a) {
      ChecksumRegisterWrite(s, a, after);
    } else if Excluded(s.cfg, a) {
      ExcludedWriteUndisturbed(s, a, Reach(s, a), after);
      UndisturbedKeepsChecksum(s, Replace(s, a, Reach(s, a), after));
    } else {
      SummedWriteIsCoherent(s, a, after);
    }
  }

  /** While checksum updating is suspended, a write to a token's register keeps the
      invariant exactly when it changes neither a protected nor a checksum register. */
  lemma SuspendedWriteCoherentIff(s: State, a: nat, after: byte)
    requires Steady(s) && Coherent(s) && ForceNoChecksum in s.status
    requires Managed(s.cfg, a) || Excluded(s.cfg, a)
    ensures Coherent(Replace(s, a, Reach(s, a), after))
       <==> (Summed(s.cfg, a) || IsChecksumRegister(s.cfg, a) ==> after == View(s, a))
  {
    hide View, Reach, StatusLayout, NotChecksummed, Unmanaged, Poke;
    var s1 := Poke(s, Reach(s, a), after);
    if IsChecksumRegister(s.cfg, a) {
      ChecksumRegisterWrite(s, a, after);
    } else if Excluded(s.cfg, a) {
      PokeUndisturbed(s, a, Reach(s, a), after);
      UndisturbedKeepsChecksum(s, s1);
    } else {
      SumPoke(s, a, after);
      PokeView(s, a, after, s.cfg.checksumLow.address);
      PokeView(s, a, after, s.cfg.checksumHigh.address);
    }
  }

  /** A register outside the managed range and in neither table is added to the
      stored checksum but never to the sum: this is why tokens must not name one. */
  lemma StrayWriteBreaksCoherenceIff(s: State, a: nat, after: byte)
    requires Steady(s) && Coherent(s) && ForceNoChecksum !in s.status
    requires !Managed(s.cfg, a) && !Excluded(s.cfg, a)
    requires Exists(s, Reach(s, a))
    ensures Coherent(Replace(s, a, Reach(s, a), after)) <==> after == View(s, a)
  {
    hide View, Reach, StatusLayout, NotChecksummed, Unmanaged;
    var s1 := Poke(s, Reach(s, a), after);
    var s2 := Flip(s1, {AddressIsChecksummed}, true);
    var w := UpdatedChecksum(StoredChecksum(s), View(s, a), after);
    ViewIsPeek(s, a);
    PokeUndisturbed(s, a, Reach(s, a), after);
    FlipUndisturbed(s1, {AddressIsChecksummed}, true);
    UndisturbedTransitive(s, s1, s2);
    UndisturbedKeepsChecksum(s, s2);
    SteadinessKept(s, s2);
    StoreChecksumEffect(s2, w);
    hide StoreChecksum, Poke, Flip;
    SumFrame(s2, StoreChecksum(s2, w), s.cfg.last + 1);
  }
}
