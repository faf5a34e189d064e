/** The client interface from outside: for every 16-bit code, which status a read or a
    write returns, which byte a read delivers, and what a write leaves alone. */
module ClientCodes {
  import opened CmosTypes
  import opened BitFields
  import opened FieldArithmetic
  import opened CmosModel
  import opened TokenLaws
  import opened Clock
  import opened Runs

  /** Some entry of the token table is the code. */
  predicate Listed(c: Config, code: word) {
    exists i :: 1 <= i < |c.tokens| && AllBits(c.tokens[i]) == code
  }

  lemma ListedIff(c: Config, code: word)
    requires WellFormed(c)
    ensures Listed(c, code) <==> 4096 <= code && HasToken(c, TokenOf(code))
    ensures Listed(c, code) ==> ProperField(TokenOf(code)) && Backed(c, TokenOf(code).address)
  {
    hide WellFormed, AllBits, TokenOf, Backed, ProperField;
    if Listed(c, code) {
      var i :| 1 <= i < |c.tokens| && AllBits(c.tokens[i]) == code;
      ListedToken(c, i);
    }
    if 4096 <= code && HasToken(c, TokenOf(code)) {
      CodeTokenRoundTrip(code);
      var i :| 1 <= i < |c.tokens| && c.tokens[i] == TokenOf(code);
      ListedToken(c, i);
    }
  }

  lemma ListedToken(c: Config, i: nat)
    requires WellFormed(c) && 1 <= i < |c.tokens|
    ensures var t := c.tokens[i];
      4096 <= AllBits(t) < 0x1_0000 && TokenOf(AllBits(t)) == t && ProperField(t) && Backed(c, t.address)
  {
    hide Layout, Addressable, ApiLayout, ClockLayout, Searchable, Backed, SortedTable, Excluded, AllBits, TokenOf;
    TokenCodeRoundTrip(c.tokens[i]);
  }

  // ---- Status ----------------------------------------------------------------------------------

  /** Reading: codes up to 0xe and, on usable CMOS, all other codes below 4096 name
      physical registers, whether the manager looks after them or not; from 4096 on a
      code must be listed. */
  lemma ReadStatus(s: State, code: word, initial: byte)
    requires Sound(s)
    ensures var st := Read(s, code, initial).0;
      && (st == DeviceError <==> 0xe < code < 4096 && IsUsable !in s.status)
      && (st == NotFound <==> code < 4096 && (code <= 0xe || IsUsable in s.status) && !Backed(s.cfg, code))
      && (st == InvalidParameter <==> 4096 <= code && !Listed(s.cfg, code))
      && st != Unsupported
  {
    hide WellFormed, Steady, Backed, TokenOf, Decode, Listed, HasToken, Reach;
    ListedIff(s.cfg, code);
  }

  /** What a read delivers: nothing when refused, the physical register for a raw code,
      and for a token the bits of its field, of the register the router reaches or, when
      it reaches none, of the caller's own variable. */
  lemma ReadValue(s: State, code: word, initial: byte)
    requires Sound(s)
    ensures var r := Read(s, code, initial);
            var register := code / 8 % 512;
      && (r.0 != Success ==> r.1 == initial)
      && (r.0 == Success && code < 4096 ==> code < |s.cells| && r.1 == s.cells[code])
      && (r.0 == Success && 4096 <= code ==>
            r.1 == (if RoutesToBuffer(s, register) && !Managed(s.cfg, register) then initial else View(s, register))
                   / Pow2(code % 8) % Pow2(code / 4096))
  {
    hide WellFormed, Steady, Backed, Decode, Listed, HasToken, NotChecksummed, Pow2;
    ListedIff(s.cfg, code);
    if code < 4096 {
      if Backed(s.cfg, code) { BackedExists(s, code); }
    } else if Listed(s.cfg, code) {
      var t := TokenOf(code);
      BackedExists(s, t.address);
      SteadyStore(s);
      DecodeIsField(Peek(s, Reach(s, t.address), initial), t);
    }
  }

  lemma SteadyStore(s: State)
    requires Sound(s)
    ensures Fits(s)
  {
    hide WellFormed, Layout;
  }

  /** Writing: as reading, except that raw writes into the managed addresses are
      refused, and values that do not fit the field of a token. */
  lemma WriteStatus(s: State, code: word, v: byte)
    requires Sound(s)
    ensures var st := Write(s, code, v).0;
            var managed := s.cfg.managedLow <= code < s.cfg.managedMax;
      && (st == DeviceError <==> 0xe < code < 4096 && IsUsable !in s.status)
      && (st == NotFound <==>
            code < 4096 && (code <= 0xe || (IsUsable in s.status && !managed)) && !Backed(s.cfg, code))
      && (st == InvalidParameter <==>
            || (0xe < code < 4096 && IsUsable in s.status && managed)
            || (4096 <= code && (!Listed(s.cfg, code) || v >= Pow2(code / 4096))))
      && st != Unsupported
  {
    hide WellFormed, Steady, Backed, Overflows, Listed, HasToken, Pow2, WriteField, BankWrite;
    ListedIff(s.cfg, code);
    if Listed(s.cfg, code) { OverflowsIff(v, TokenOf(code)); }
  }

  // ---- What a write leaves alone -----------------------------------------------------------------

  /** A raw write changes its register and nothing else, not even the checksum. */
  lemma RawWriteEffect(s: State, code: word, v: byte)
    requires Sound(s) && code < 4096 && Write(s, code, v).0 == Success
    ensures var s' := Write(s, code, v).1;
      Cmos(s', code) == v && OnlyCells(s, s', {code})
  {
    hide WellFormed, Steady, Backed, HasToken, TokenOf, WriteField;
    BackedExists(s, code);
  }

  /** The slot in which the buffer keeps a register. */
  predicate IsSlotOf(c: Config, i: nat, a: nat) { Managed(c, a) && i == BufferIndex(c, a) }

  predicate IsChecksumSlot(c: Config, i: nat) {
    IsSlotOf(c, i, c.checksumLow.address) || IsSlotOf(c, i, c.checksumHigh.address)
  }

  /** A token write touches its own register in the store that the router chooses, and
      besides at most the checksum registers. */
  lemma TokenWriteFrame(s: State, t: Token, v: byte)
    requires ProperField(t)
    ensures var s' := WriteField(s, t, v);
      && s'.checksum == s.checksum && s'.dxe == s.dxe && |s'.table| == |s.table| && |s'.cells| == |s.cells|
      && (forall a: nat :: (a != t.address || RoutesToBuffer(s, a)) && !IsChecksumRegister(s.cfg, a) ==>
            Cmos(s', a) == Cmos(s, a))
      && (forall i: nat :: i < |s.table| && !IsChecksumSlot(s.cfg, i) ==>
            s'.table[i] == s.table[i] || (IsSlotOf(s.cfg, i, t.address) && RoutesToBuffer(s, t.address)))
  {
    hide Overflows, Merge, Encode, FieldMask, NotChecksummed, Unmanaged, StoredChecksum;
    var c := Reach(s, t.address);
    var after := Merge(Peek(s, c, 0), FieldMask(t), Encode(v, t));
    var s1 := Poke(s, c, after);
    var s2 := Flip(s1, {AddressIsChecksummed}, true);
    StoreChecksumFrame(s2, UpdatedChecksum(StoredChecksum(s), Peek(s, c, 0), after));
    hide StoreChecksum;
  }

  lemma StoreChecksumFrame(s: State, w: word)
    ensures var s' := StoreChecksum(s, w);
      && s'.checksum == s.checksum && s'.dxe == s.dxe && |s'.table| == |s.table| && |s'.cells| == |s.cells|
      && (forall a: nat :: !IsChecksumRegister(s.cfg, a) ==> Cmos(s', a) == Cmos(s, a))
      && (forall i: nat :: i < |s.table| && !IsChecksumSlot(s.cfg, i) ==> s'.table[i] == s.table[i])
  {
    hide NotChecksummed;
  }

  /** With checksum updating enabled, a write that reaches a register leaves the
      address-is-checksummed bit telling whether the register is in neither table. */
  lemma WriteMarksChecksummed(s: State, t: Token, v: byte)
    requires ProperField(t) && !Overflows(v, t)
    ensures AddressIsChecksummed in WriteField(s, t, v).status <==>
      if ForceNoChecksum in s.status || Reach(s, t.address) == Nowhere then AddressIsChecksummed in s.status
      else !Excluded(s.cfg, t.address)
  {
    hide Overflows, Merge, Encode, FieldMask, Excluded, StoredChecksum, NotChecksummed;
    var c := Reach(s, t.address);
    var after := Merge(Peek(s, c, 0), FieldMask(t), Encode(v, t));
    var s2 := Flip(Poke(s, c, after), {AddressIsChecksummed}, true);
    StoreChecksumShape(s2, UpdatedChecksum(StoredChecksum(s), Peek(s, c, 0), after));
    hide StoreChecksum;
  }
}
