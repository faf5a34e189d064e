/** Two small boards in the shape of the shipped one, and the inputs on which the
    code does less than one would expect.

    Both keep the checksum in registers 0x40 and 0x41 and the interface pointer in
    0x42 to 0x45.  The rest is made up: an unmanaged status register 0x46, a protected
    register 0x47, a register 0x48 outside the checksum, and a token on the unmanaged
    register 0x50 outside the managed range. */
module Board {
  import opened CmosTypes
  import opened BitFields
  import opened CmosModel
  import opened Loader
  import opened PersistedStatus
  import opened ApiPointer
  import opened Runs
  import opened Boot
  import opened HandOff
  import opened Recovery
  import opened StatusMemory
  import opened Sessions

  const HIGH := Token(8, 0x40, 0)
  const LOW := Token(8, 0x41, 0)
  const BATTERY_BAD := Token(1, 0x46, 0)
  const CHECKSUM_BAD := Token(1, 0x46, 1)
  const DEFAULTS_LOADED := Token(1, 0x46, 2)
  const FIRST_BOOT := Token(1, 0x46, 3)
  const DATA := Token(8, 0x47, 0)
  const NOTE := Token(8, 0x48, 0)
  const OUTSIDE := Token(8, 0x50, 0)
  const UNUSED := Token(0, 0, 0)

  /** The pointer registers are unmanaged, as shipped, or merely not checksummed. */
  function BoardOf(unmanagedPointer: bool): Config {
    Config(
      0x40, 0x48, 0x40, 128,
      [UNUSED, HIGH, LOW, BATTERY_BAD, CHECKSUM_BAD, DEFAULTS_LOADED, FIRST_BOOT, DATA, NOTE, OUTSIDE],
      if unmanagedPointer then [0, 0x40, 0x41, 0x48, 0xffff]
      else [0, 0x40, 0x41, 0x42, 0x43, 0x44, 0x45, 0x48, 0xffff],
      if unmanagedPointer then [0, 0x42, 0x43, 0x44, 0x45, 0x46, 0x50, 0xffff]
      else [0, 0x46, 0x50, 0xffff],
      [Bank.Bank(0, 0, false), Bank.Bank(0, 127, true)],
      LOW, HIGH, BATTERY_BAD, CHECKSUM_BAD, DEFAULTS_LOADED, FIRST_BOOT)
  }

  const BOARD := BoardOf(true)

  // ---- The boards are well formed ------------------------------------------------------------------

  lemma Backing(u: bool, a: nat)
    requires a <= 127
    ensures Backed(BoardOf(u), a) && GoodRegister(BoardOf(u), a)
  {
    assert Covers(BoardOf(u).banks[1], a);
  }

  lemma BoardEntries()
    ensures Entries(BoardOf(true).noChecksum) == [0x40, 0x41, 0x48]
    ensures Entries(BoardOf(true).unmanaged) == [0x42, 0x43, 0x44, 0x45, 0x46, 0x50]
    ensures Entries(BoardOf(false).noChecksum) == [0x40, 0x41, 0x42, 0x43, 0x44, 0x45, 0x48]
    ensures Entries(BoardOf(false).unmanaged) == [0x46, 0x50]
  {
  }

  lemma Exclusions(u: bool, a: nat)
    ensures NotChecksummed(BoardOf(u), a) <==> a == 0x40 || a == 0x41 || a == 0x48 || (!u && IsApiRegister(a))
    ensures Unmanaged(BoardOf(u), a) <==> a == 0x46 || a == 0x50 || (u && IsApiRegister(a))
  {
    hide BoardOf, Entries;
    BoardEntries();
  }

  lemma BoardTokens(u: bool)
    ensures TokensListed(BoardOf(u))
  {
    hide Backed, Searchable, NotChecksummed, Unmanaged, GoodRegister;
    var c := BoardOf(u);
    forall i | 1 <= i < |c.tokens| ensures GoodToken(c, c.tokens[i]) {
      Backing(u, c.tokens[i].address);
      Exclusions(u, c.tokens[i].address);
    }
    assert c.tokens[1] == HIGH && c.tokens[2] == LOW && c.tokens[3] == BATTERY_BAD
        && c.tokens[4] == CHECKSUM_BAD && c.tokens[5] == DEFAULTS_LOADED && c.tokens[6] == FIRST_BOOT;
  }

  lemma BoardLayout(u: bool)
    ensures var c := BoardOf(u);
      && Layout(c) && ApiLayout(c) && ClockLayout(c) && Addressable(c)
      && (forall a: nat :: Summed(c, a) <==> a == 0x47)
  {
    hide NotChecksummed, Unmanaged, GoodRegister, Backed;
    forall a: nat
      ensures NotChecksummed(BoardOf(u), a) <==> a == 0x40 || a == 0x41 || a == 0x48 || (!u && IsApiRegister(a))
      ensures Unmanaged(BoardOf(u), a) <==> a == 0x46 || a == 0x50 || (u && IsApiRegister(a))
      ensures a <= 127 ==> GoodRegister(BoardOf(u), a) && Backed(BoardOf(u), a)
    {
      Exclusions(u, a);
      if a <= 127 { Backing(u, a); }
    }
  }

  /** The requirements on the tables can be met. */
  lemma BoardIsWellFormed(u: bool)
    ensures WellFormed(BoardOf(u))
  {
    hide Layout, ApiLayout, ClockLayout, Addressable, TokensListed, Summed;
    BoardLayout(u);
    BoardTokens(u);
  }

  lemma BoardIndexes()
    ensures DefaultIndex(BOARD, 0x47) == 3 && DefaultIndex(BOARD, 0x48) == 4
  {
    hide Unmanaged;
    forall a: nat ensures Unmanaged(BOARD, a) <==> a == 0x46 || a == 0x50 || IsApiRegister(a) { Exclusions(true, a); }
    assert UnmanagedBelow(BOARD, 0x42) == UnmanagedBelow(BOARD, 0x41) == UnmanagedBelow(BOARD, 0x40) == 0;
    assert UnmanagedBelow(BOARD, 0x43) == 1;
    assert UnmanagedBelow(BOARD, 0x44) == 2;
    assert UnmanagedBelow(BOARD, 0x45) == 3;
    assert UnmanagedBelow(BOARD, 0x46) == 4;
  }

  lemma SmallBits()
    ensures ToBits(0) == 0 && ToBits(1) == 1 && ToBits(2) == 2 && ToBits(3) == 3
  {
    EightBits();
  }

  lemma OneBitMask(t: Token, o: Bits)
    requires ProperField(t) && t.size == 1 && ToBits(t.offset) == o <= 3
    ensures ToBits(FieldMask(t)) == 1 << o
  {
    hide ToBits, Number;
    SmallBits();
    NumberToBits(ClobberBits(o, 1));
  }

  lemma BoardTokensApart()
    ensures StatusTokensApart(BOARD)
  {
    hide ToBits, FieldMask;
    SmallBits();
    OneBitMask(BATTERY_BAD, 0);
    OneBitMask(CHECKSUM_BAD, 1);
    OneBitMask(DEFAULTS_LOADED, 2);
    OneBitMask(FIRST_BOOT, 3);
  }

  /** The codes that clients use: size, register and offset can be read off. */
  lemma BoardCodes()
    ensures AllBits(DATA) == 0x8238 && TokenOf(0x8238) == DATA
    ensures AllBits(DEFAULTS_LOADED) == 0x1232 && TokenOf(0x1232) == DEFAULTS_LOADED
  {
  }

  // ---- Two coherent states with the buffer on ----------------------------------------------------------

  function Zeros(n: nat): (z: seq<byte>) { seq(n, _ => 0) }

  /** The buffer is on; the values are those of the low checksum byte and 0x48 in
      CMOS, and of the low checksum byte and 0x47 in the buffer. */
  function BufferedState(status: Bitmap, low: byte, note: byte, low': byte, data': byte): State {
    State(BOARD, status, Zeros(128)[0x41 := low][0x48 := note], Zeros(10)[2 := low'][8 := data'], None, 0, true)
  }

  /** Every managed register is in the buffer. */
  const VIRTUAL := BufferedState({ValidInterface, IsUsable, OptimalDefaultsEnabled}, 0, 0, 1, 1)
  /** The registers outside the checksum, and with them the checksum, stay in CMOS. */
  const PARTIAL := BufferedState({ValidInterface, IsUsable, OptimalDefaultsEnabled, RecoverOnlyChecksummed}, 1, 7, 0, 1)

  lemma BoardStateSound(s: State)
    requires s == VIRTUAL || s == PARTIAL
    ensures Sound(s)
  {
    hide WellFormed, Layout, Summed;
    BoardIsWellFormed(true);
    BoardLayout(true);
  }

  lemma BoardSum(s: State)
    requires s.cfg == BOARD
    ensures Sum(s) == View(s, 0x47)
  {
    hide Layout, Summed, View;
    BoardLayout(true);
    SingleSum(s, 0x47, BOARD.last + 1);
  }

  lemma BoardStateGood(s: State)
    requires s == VIRTUAL || s == PARTIAL
    ensures Good(s) && ErrorLoadingDefaults !in s.status
    ensures View(s, 0x47) == 1
  {
    hide Sound, NotChecksummed, Unmanaged, Sum;
    BoardStateSound(s);
    BoardSum(s);
    Exclusions(true, 0x40);
    Exclusions(true, 0x41);
    Exclusions(true, 0x47);
  }

  // ---- What goes wrong -----------------------------------------------------------------------------------

  /** A flush shows the wrong entry at the protected register: the loader's slot for
      0x47 is 3 where the buffer's slot is 8.  Every DXE entry that finds CMOS usable
      makes this flush. */
  lemma FlushCorruptsBoard(a: Answers, policy: Policy, installed: bool)
    requires UsableAfter(VIRTUAL, a)
    ensures Good(VIRTUAL) && FlushPossible(VIRTUAL, BOARD)
    ensures View(VIRTUAL, 0x47) == 1 && View(Flush(VIRTUAL), 0x47) == 0
    ensures View(DxeEntry(VIRTUAL, a, policy, installed), 0x47) == 0
  {
    hide Sound, View, Flush, DxeEntry, Open, NotChecksummed, Unmanaged, Coherent, Layout, UsableAfter;
    BoardStateGood(VIRTUAL);
    SoundSteady(VIRTUAL);
    BoardLayout(true);
    BoardIndexes();
    FlushedRegister(VIRTUAL, 0x47);
    DxeEntryView(VIRTUAL, a, policy, installed, 0x47);
    OpenKeepsDefault(VIRTUAL, a, policy, 0x47);
  }

  lemma SoundSteady(s: State)
    requires Sound(s)
    ensures Steady(s)
  {
  }

  /** The policy spares registers outside the checksum, PEI hands over a coherent
      state, and yet every DXE entry that finds CMOS usable replaces such a register. */
  lemma PolicyIgnoredOnBoard(a: Answers, policy: Policy, installed: bool)
    requires UsableAfter(PARTIAL, a)
    ensures Good(PARTIAL) && RecoverOnlyChecksummed in PARTIAL.status && NotChecksummed(BOARD, 0x48)
    ensures Cmos(PARTIAL, 0x48) == 7 && Cmos(DxeEntry(PARTIAL, a, policy, installed), 0x48) == 0
  {
    hide Sound, View, DxeEntry, Open, NotChecksummed, Unmanaged, Coherent, Layout, UsableAfter;
    BoardStateGood(PARTIAL);
    SoundSteady(PARTIAL);
    Exclusions(true, 0x48);
    BoardIndexes();
    assert Routed(PARTIAL, a, policy) == PARTIAL;
    DxeSparesIff(PARTIAL, a, policy, installed, 0x48);
    OpenKeepsDefault(PARTIAL, a, policy, 0x48);
  }

  /** PEI hands over a coherent state; every DXE entry whose hooks then find CMOS not
      usable looks for the checksum in the buffer and goes on with an incoherent view. */
  lemma DxeIncoherentOnBoard(a: Answers, policy: Policy, installed: bool)
    requires !UsableAfter(PARTIAL, a)
    ensures Good(PARTIAL) && !Coherent(DxeEntry(PARTIAL, a, policy, installed))
  {
    hide Sound, DxeEntry, NotChecksummed, Unmanaged, Sum, Layout, UsableAfter;
    BoardStateGood(PARTIAL);
    SoundSteady(PARTIAL);
    Exclusions(true, 0x40);
    Exclusions(true, 0x41);
    DxeKeepsCoherence(PARTIAL, a, policy, installed);
  }

  /** A token outside the managed range, written while the buffer is on: the write
      reports success and changes nothing, and a read returns what the caller's
      variable held before. */
  lemma LostWriteOnBoard(v: byte, initial: byte)
    ensures Good(VIRTUAL) && Write(VIRTUAL, AllBits(OUTSIDE), v) == (Success, VIRTUAL)
    ensures Read(VIRTUAL, AllBits(OUTSIDE), initial) == (Success, initial)
  {
    hide Sound, Unmanaged, NotChecksummed, Overflows, Decode, Merge, Encode, FieldMask, Coherent, View;
    BoardStateGood(VIRTUAL);
    Exclusions(true, 0x50);
    TokenCodeRoundTrip(OUTSIDE);
    assert BOARD.tokens[9] == OUTSIDE;
    WholeByte(0, v, OUTSIDE);
    WholeByte(initial, v, OUTSIDE);
  }

  /** DXE flushes and sets the defaults-loaded bit; the token that should remember it
      across a reset stays clear. */
  lemma LoadForgottenOnBoard(a: Answers, policy: Policy, installed: bool)
    requires UsableAfter(VIRTUAL, a)
    ensures Good(VIRTUAL)
    ensures var s' := DxeEntry(VIRTUAL, a, policy, installed);
      DefaultsLoaded in s'.status && !Remembers(s', DefaultsLoaded)
  {
    hide Sound, DxeEntry, NotChecksummed, Unmanaged, Coherent, View, Layout, UsableAfter, Remembers, Decode;
    hide StatusTokensApart;
    BoardStateGood(VIRTUAL);
    SoundSteady(VIRTUAL);
    BoardTokensApart();
    Exclusions(true, 0x46);
    ZeroField(DEFAULTS_LOADED);
    DxeRemembersIff(VIRTUAL, a, policy, installed);
  }

  lemma ZeroField(t: Token)
    requires ProperField(t)
    ensures Decode(0, t) == 0
  {
    ProperFieldBits(t);
    ZeroBitsField(ToBits(t.offset), ToBits(t.size));
  }

  lemma ZeroBitsField(offset: Bits, size: Bits)
    requires offset <= 7 && 1 <= size <= 8
    ensures DecodeBits(0, offset, size) == 0
  {
  }

  /** With unmanaged pointer registers the pointer saved in PEI always survives; on
      the same board with the registers merely left out of the checksum, recovery
      overwrites it. */
  lemma PointerOnBoards()
    ensures forall i :: SavesPointer(BoardOf(true), i) ==> GetUpTo(EndOfPei(BoardOf(true), i), 4) == i.p
    ensures SavesPointer(BoardOf(false), LOSING) && GetUpTo(EndOfPei(BoardOf(false), LOSING), 4) != LOSING.p
  {
    hide SavesPointer, EndOfPei, GetUpTo, Layout, ApiLayout, Unmanaged, NotChecksummed;
    BoardLayout(true);
    BoardLayout(false);
    forall a | IsApiRegister(a) ensures !Loadable(BoardOf(true), a) { Exclusions(true, a); }
    PointerSurvivesPeiIff(BoardOf(true));
    Exclusions(false, API_BYTE3);
    PointerLost(BoardOf(false), API_BYTE3);
  }

  /** A load while the registers are buffered and the checksum is in CMOS: the stored
      checksum becomes that of the entries written, and the view is incoherent. */
  lemma LoadIncoherentOnBoard()
    ensures Good(PARTIAL) && Load(PARTIAL).0 == Success && !Coherent(Load(PARTIAL).1)
  {
    hide Sound, Load, Flush, View, NotChecksummed, Unmanaged, Layout, EntrySum, Coherent, Sum;
    BoardStateGood(PARTIAL);
    SoundSteady(PARTIAL);
    Exclusions(true, 0x41);
    BoardLayout(true);
    BoardIndexes();
    LoadSucceeds(PARTIAL);
    LoadCoherentIff(PARTIAL);
    SumOfFlush(PARTIAL);
    FlushFits(PARTIAL);
    BoardSum(PARTIAL);
    BoardSum(Flush(PARTIAL));
    FlushedRegister(PARTIAL, 0x47);
  }
}
