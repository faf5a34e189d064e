/** Small equations between the code's order of steps and the one-step effects. */
module Refinement {
  import opened CmosTypes
  import opened BitFields
  import opened CmosModel
  import opened Coherence
  import opened StatusUpdates
  import opened Loader
  import opened Interleaving
  import opened HandOff

  lemma PokeFlipCommute(s: State, c: Cell, v: byte, bits: Bitmap, on: bool)
    ensures Poke(Flip(s, bits, on), c, v) == Flip(Poke(s, c, v), bits, on)
    ensures Peek(Flip(s, bits, on), c, v) == Peek(s, c, v)
  {
  }

  lemma SuspendedReach(s: State, a: nat)
    ensures Reach(Flip(s, {ForceNoChecksum}, true), a) == Reach(s, a)
    ensures Reach(Flip(s, {ForceNoChecksum}, false), a) == Reach(s, a)
  {
  }

  lemma SuspendedPokes(s: State, w: word)
    ensures PokeChecksum(Flip(s, {ForceNoChecksum}, true), w) == Flip(PokeChecksum(s, w), {ForceNoChecksum}, true)
  {
    hide Reach, Flip;
    var low, high := s.cfg.checksumLow.address, s.cfg.checksumHigh.address;
    SuspendedReach(s, low);
    SuspendedReach(s, high);
    PokeFlipCommute(s, Reach(s, low), w % 256, {ForceNoChecksum}, true);
    PokeFlipCommute(Poke(s, Reach(s, low), w % 256), Reach(s, high), w / 256, {ForceNoChecksum}, true);
    hide Poke;
    FlipKeepsConfig(s);
  }

  lemma FlipKeepsConfig(s: State)
    ensures Flip(s, {ForceNoChecksum}, true).cfg == s.cfg
  {
  }

  /** Suspending checksum updating around the checksum write leaves no trace. */
  lemma SuspendedStore(s: State, w: word)
    ensures Flip(StoreChecksum(Flip(s, {ForceNoChecksum}, true), w), {ForceNoChecksum}, false) == StoreChecksum(s, w)
  {
    hide PokeChecksum;
    var n := NoteChecksum(s, w);
    assert NoteChecksum(Flip(s, {ForceNoChecksum}, true), w) == Flip(n, {ForceNoChecksum}, true);
    SuspendedPokes(n, w);
    FlipBack(PokeChecksum(n, w));
  }

  /** Writing an 8-bit token while updating is suspended replaces the byte. */
  lemma SuspendedByteWrite(s: State, t: Token, v: byte)
    requires t.size == 8 && t.offset == 0 && ForceNoChecksum in s.status
    ensures WriteField(s, t, v) == Poke(s, Reach(s, t.address), v)
  {
    hide Overflows, Merge, Encode, FieldMask, Reach;
    WholeByte(Peek(s, Reach(s, t.address), 0), v, t);
  }

  /** WriteChecksum step by step: note it, suspend, write both bytes, resume. */
  lemma StoreBySteps(s: State, w: word)
    requires ChecksumLayout(s.cfg)
    ensures var s1 := Flip(NoteChecksum(s, w), {ForceNoChecksum}, true);
            var s2 := WriteField(s1, s.cfg.checksumLow, w % 256);
            var s3 := WriteField(s2, s.cfg.checksumHigh, w / 256);
      && Flip(s3, {ForceNoChecksum}, false) == StoreChecksum(s, w)
      && ForceNoChecksum in s1.status && ForceNoChecksum in s2.status
  {
    ChecksumTokensAreBytes(s.cfg);
    hide WriteField, Reach, ChecksumLayout, PokeChecksum;
    var n := NoteChecksum(s, w);
    var low, high := s.cfg.checksumLow, s.cfg.checksumHigh;
    var s1 := Flip(n, {ForceNoChecksum}, true);
    var s2 := WriteField(s1, low, w % 256);
    SuspendedByteWrite(s1, low, w % 256);
    SuspendedByteWrite(s2, high, w / 256);
    RoutingDecidesReach(s1, s2, high.address);
    PokeChecksumMeaning(s1, w);
    SuspendedPokes(n, w);
    FlipBack(PokeChecksum(n, w));
  }

  lemma PokeChecksumMeaning(s: State, w: word)
    ensures PokeChecksum(s, w)
         == Poke(Poke(s, Reach(s, s.cfg.checksumLow.address), w % 256), Reach(s, s.cfg.checksumHigh.address), w / 256)
  {
  }

  lemma FlipBack(s: State)
    ensures Flip(Flip(s, {ForceNoChecksum}, true), {ForceNoChecksum}, false) == Flip(s, {ForceNoChecksum}, false)
  {
    assert s.status + {ForceNoChecksum} - {ForceNoChecksum} == s.status - {ForceNoChecksum};
  }

  lemma ChecksumTokensAreBytes(c: Config)
    requires ChecksumLayout(c)
    ensures c.checksumLow.size == 8 && c.checksumLow.offset == 0
    ensures c.checksumHigh.size == 8 && c.checksumHigh.offset == 0
  {
  }

  /** The 16-bit code of a listed token leads back to the token. */
  lemma ListedTokenCode(c: Config, t: Token)
    requires WellFormed(c) && HasToken(c, t)
    ensures ProperField(t) && MIN_TOKEN_VALUE <= AllBits(t) < 0x1_0000 && TokenOf(AllBits(t)) == t
  {
    hide Layout, Addressable, ApiLayout, ClockLayout, SortedTable, GoodRegister, TokenOf, AllBits;
    TokenCodeRoundTrip(t);
  }

  lemma WriteByCode(s: State, t: Token, v: byte)
    requires WellFormed(s.cfg) && HasToken(s.cfg, t)
    ensures ProperField(t) && AllBits(t) < 0x1_0000
    ensures Write(s, AllBits(t), v).1 == WriteField(s, t, v)
  {
    hide WellFormed, TokenOf, AllBits, WriteField, Overflows;
    ListedTokenCode(s.cfg, t);
  }

  lemma ReadByCode(s: State, t: Token, initial: byte)
    requires WellFormed(s.cfg) && HasToken(s.cfg, t)
    ensures ProperField(t) && AllBits(t) < 0x1_0000
    ensures Read(s, AllBits(t), initial) == (Success, ReadField(s, t, initial))
  {
    hide WellFormed, TokenOf, AllBits, ReadField;
    ListedTokenCode(s.cfg, t);
  }

  /** The diagnostic register bit by bit. */
  lemma SyncBySteps(s: State, bits: Bitmap, on: bool)
    ensures var d := Physical(DIAGNOSTIC_REGISTER);
            var s1 := if BadChecksum in bits then Poke(s, d, Mirror(Peek(s, d, 0), 0x40, on, s.dxe)) else s;
            var s2 := if BadBattery in bits then Poke(s1, d, Mirror(Peek(s1, d, 0), 0x80, on, s.dxe)) else s1;
      s2 == SyncLegacy(s, bits, on)
  {
    hide Mirror;
    if DIAGNOSTIC_REGISTER < |s.cells| {
      var b := s.cells[DIAGNOSTIC_REGISTER];
      assert s.cells[DIAGNOSTIC_REGISTER := b] == s.cells;
      var b1 := Mirror(b, 0x40, on, s.dxe);
      var b2 := Mirror(b1, 0x80, on, s.dxe);
      assert s.cells[DIAGNOSTIC_REGISTER := b1][DIAGNOSTIC_REGISTER := b2] == s.cells[DIAGNOSTIC_REGISTER := b2];
    }
  }

  /** The code found in the token table is the token it encodes, and a code that is
      not found encodes no listed token. */
  lemma CodeFound(c: Config, i: nat, code: word)
    requires TokensListed(c) && 1 <= i < |c.tokens|
    ensures AllBits(c.tokens[i]) == code <==> c.tokens[i] == TokenOf(code) && MIN_TOKEN_VALUE <= code
  {
    hide GoodRegister, Excluded, Managed;
    assert GoodToken(c, c.tokens[i]);
    TokenCodeRoundTrip(c.tokens[i]);
    CodeOfToken(code);
  }

  lemma CodeOfToken(code: word)
    ensures AllBits(TokenOf(code)) == code
  {
  }

  /** Outside the mirrored bits the diagnostic register keeps its value. */
  lemma UnmirroredSync(s: State, bits: Bitmap, on: bool)
    requires BadChecksum !in bits && BadBattery !in bits
    ensures SyncLegacy(s, bits, on) == s
  {
  }

  lemma AssignSound(s: State, bits: Bitmap, on: bool)
    requires Sound(s) && (on && OptimalDefaultsEnabled in bits ==> CoversRange(s))
    ensures Sound(Assign(s, bits, on))
  {
    hide WellFormed, Layout;
  }

  /** A byte write in the code's order: classify, store the byte, store the checksum. */
  lemma ReplaceBySteps(s: State, a: nat, c: Cell, after: byte)
    requires c != Nowhere && ForceNoChecksum !in s.status
    ensures var s2 := Poke(Flip(s, {AddressIsChecksummed}, !Excluded(s.cfg, a)), c, after);
      && Replace(s, a, c, after)
         == (if Excluded(s.cfg, a) then s2
             else StoreChecksum(s2, UpdatedChecksum(StoredChecksum(s), Peek(s, c, 0), after)))
      && (AddressIsChecksummed in s2.status <==> !Excluded(s.cfg, a))
      && ForceNoChecksum !in s2.status
  {
    hide StoreChecksum, StoredChecksum, Excluded;
    PokeFlipCommute(s, c, after, {AddressIsChecksummed}, !Excluded(s.cfg, a));
  }

  // ---- The checksum scan ------------------------------------------------------------------------

  lemma SumStart(s: State, n: nat)
    requires n <= s.cfg.first
    ensures SumBelow(s, n) == 0
  {
    SumBound(s, n);
  }

  /** The scan stops at the last register, or never started. */
  lemma ScanEnd(s: State, r: nat)
    requires s.cfg.first <= r && s.cfg.last < r && (r == s.cfg.last + 1 || r == s.cfg.first)
    ensures SumBelow(s, r) == Sum(s)
  {
    hide SumBelow;
    if r != s.cfg.last + 1 {
      SumStart(s, r);
      SumStart(s, s.cfg.last + 1);
    }
  }

  lemma AddModulo(x: nat, v: nat)
    ensures (x % 0x1_0000 + v) % 0x1_0000 == (x + v) % 0x1_0000
  {
  }

  // ---- The load loop ------------------------------------------------------------------------------

  lemma LoadStart(s: State, n: nat)
    requires n <= s.cfg.first
    ensures s.(cells := LoadedCells(s, n)) == s
  {
    assert LoadedCells(s, n) == s.cells;
  }

  /** A register that the loader skips. */
  lemma LoadSkip(s: State, r: nat)
    requires !Loads(s, r)
    ensures LoadedCells(s, r + 1) == LoadedCells(s, r)
  {
    hide Loads;
  }

  lemma LoadWrite(s: State, r: nat)
    requires Loads(s, r) && r < |s.cells|
    requires ForceNoChecksum in s.status && OptimalDefaultsEnabled !in s.status
    ensures WriteRegister(s.(cells := LoadedCells(s, r)), r, ALL_BITS, DefaultFor(s, r))
         == s.(cells := LoadedCells(s, r + 1))
  {
    hide Loads, DefaultFor, Merge;
    var s1 := s.(cells := LoadedCells(s, r));
    assert Reach(s1, r) == Physical(r);
    MergeAllBits(Peek(s1, Physical(r), 0), DefaultFor(s, r));
    assert LoadedCells(s, r)[r := DefaultFor(s, r)] == LoadedCells(s, r + 1);
  }

  /** Once the table is used up, no later register is loaded. */
  lemma LoadUsedUp(s: State, r: nat, n: nat)
    requires s.cfg.first <= r <= n && DefaultIndex(s.cfg, r) >= |s.table|
    ensures LoadedCells(s, n) == LoadedCells(s, r)
  {
    hide DefaultFor, Unmanaged, NotChecksummed;
    forall k: nat | r <= k < n ensures !Loads(s, k) { UnmanagedBelowMonotone(s.cfg, r, k); }
    hide Loads;
  }

  lemma LoadEnd(s: State, r: nat)
    requires s.cfg.last < r
    ensures LoadedCells(s, r) == LoadedCells(s, s.cfg.last + 1)
  {
    hide DefaultFor, Unmanaged, NotChecksummed;
  }

  lemma IndexStart(c: Config)
    ensures DefaultIndex(c, c.first) == 1
  {
  }

  lemma IndexStep(c: Config, r: nat)
    requires c.first <= r
    ensures DefaultIndex(c, r + 1) == DefaultIndex(c, r) + if Unmanaged(c, r) then 0 else 1
    ensures 1 <= DefaultIndex(c, r)
  {
    hide Unmanaged;
    UnmanagedBelowBound(c, r);
  }

  // ---- Copying the tables into the hand-off block ---------------------------------------------------

  /** The memory past a copied table does not hold a register that is looked up. */
  ghost predicate GoodSpare(c: Config, spare: nat) {
    && !Managed(c, spare) && !IsApiRegister(spare)
    && forall i :: 1 <= i < |c.tokens| ==> c.tokens[i].address != spare
  }

  lemma CopiedTable(t: seq<nat>, spare: nat)
    requires SortedTable(t)
    ensures SortedTable(Copied(t, spare)) && Entries(Copied(t, spare)) == Entries(t)
    ensures |Copied(t, spare)| == |t| && Copied(t, spare)[|t| - 1] == spare
  {
  }

  lemma CopyLayout(c: Config, c': Config)
    requires SameTables(c, c') && Layout(c) && ApiLayout(c) && ClockLayout(c)
    ensures Layout(c') && ApiLayout(c') && ClockLayout(c')
  {
    hide SameTables, Excluded, Unmanaged;
    SameTablesFields(c, c');
    forall a: nat
      ensures Excluded(c', a) == Excluded(c, a) && Unmanaged(c', a) == Unmanaged(c, a)
    {
      SameTablesClassify(c, c', a);
    }
  }

  lemma SameTablesFields(c: Config, c': Config)
    requires SameTables(c, c')
    ensures c'.first == c.first && c'.last == c.last && c'.tokens == c.tokens && c'.banks == c.banks
    ensures c'.managedLow == c.managedLow && c'.managedMax == c.managedMax
    ensures c'.checksumLow == c.checksumLow && c'.checksumHigh == c.checksumHigh
    ensures c'.batteryBad == c.batteryBad && c'.checksumBad == c.checksumBad
    ensures c'.defaultsLoaded == c.defaultsLoaded && c'.firstBoot == c.firstBoot
  {
  }

  lemma CopyGoodRegister(c: Config, c': Config, a: nat)
    requires SameTables(c, c') && GoodRegister(c, a)
    requires |c'.noChecksum| >= 2 && a != c'.noChecksum[|c'.noChecksum| - 1]
    requires |c'.unmanaged| >= 2 && a != c'.unmanaged[|c'.unmanaged| - 1]
    ensures GoodRegister(c', a)
  {
    hide Entries;
    var i :| 1 <= i < |c.banks| && Covers(c.banks[i], a);
    assert Covers(c'.banks[i], a);
  }

  lemma CopyAddressable(c: Config, c': Config, spare: nat, spare': nat)
    requires Addressable(c) && SameTables(c, c') && GoodSpare(c, spare) && GoodSpare(c, spare')
    requires |c'.noChecksum| >= 2 && c'.noChecksum[|c'.noChecksum| - 1] == spare
    requires |c'.unmanaged| >= 2 && c'.unmanaged[|c'.unmanaged| - 1] == spare'
    ensures Addressable(c')
  {
    hide SameTables, GoodRegister, Backed;
    SameTablesFields(c, c');
    forall a | Managed(c', a) || IsApiRegister(a) ensures GoodRegister(c', a) { CopyGoodRegister(c, c', a); }
    forall a: nat ensures Backed(c', a) <==> Backed(c, a) { SameBanks(c, c', a); }
  }

  lemma SameBanks(c: Config, c': Config, a: nat)
    requires c'.banks == c.banks
    ensures Backed(c', a) <==> Backed(c, a)
  {
  }

  lemma CopyTokens(c: Config, c': Config, spare: nat, spare': nat)
    requires TokensListed(c) && SameTables(c, c') && GoodSpare(c, spare) && GoodSpare(c, spare')
    requires |c'.noChecksum| >= 2 && c'.noChecksum[|c'.noChecksum| - 1] == spare
    requires |c'.unmanaged| >= 2 && c'.unmanaged[|c'.unmanaged| - 1] == spare'
    ensures TokensListed(c')
  {
    hide SameTables, GoodRegister, Excluded;
    SameTablesFields(c, c');
    forall i | 1 <= i < |c'.tokens| ensures GoodToken(c', c'.tokens[i]) {
      assert GoodToken(c, c.tokens[i]);
      CopyGoodRegister(c, c', c.tokens[i].address);
      SameTablesClassify(c, c', c.tokens[i].address);
    }
  }

  /** Copied tables are as well formed as the originals. */
  lemma CopyWellFormed(c: Config, spare: nat, spare': nat)
    requires WellFormed(c) && GoodSpare(c, spare) && GoodSpare(c, spare')
    ensures var c' := c.(noChecksum := Copied(c.noChecksum, spare), unmanaged := Copied(c.unmanaged, spare'));
      WellFormed(c') && SameTables(c, c')
  {
    hide SortedTable, Copied, Entries, Addressable, TokensListed, Layout, ApiLayout, ClockLayout, GoodSpare;
    var c' := c.(noChecksum := Copied(c.noChecksum, spare), unmanaged := Copied(c.unmanaged, spare'));
    CopiedTable(c.noChecksum, spare);
    CopiedTable(c.unmanaged, spare');
    CopyLayout(c, c');
    CopyAddressable(c, c', spare, spare');
    CopyTokens(c, c', spare, spare');
  }

  lemma RespareSound(s: State, spare: nat, spare': nat)
    requires Sound(s) && GoodSpare(s.cfg, spare) && GoodSpare(s.cfg, spare')
    ensures var s' := CreateHob(s, spare, spare');
      Sound(s') && SameTables(s.cfg, s'.cfg)
  {
    hide WellFormed, Layout, SameTables, GoodSpare, Copied;
    CopyWellFormed(s.cfg, spare, spare');
    var s' := CreateHob(s, spare, spare');
    SameTablesFields(s.cfg, s'.cfg);
    CopySteady(s, s');
  }

  lemma CopySteady(s: State, s': State)
    requires Steady(s) && WellFormed(s'.cfg) && SameTables(s.cfg, s'.cfg)
    requires s'.status == s.status && s'.cells == s.cells && s'.table == s.table
    ensures Steady(s')
  {
    hide Layout, ApiLayout, ClockLayout, Addressable, TokensListed, SortedTable;
  }
}
