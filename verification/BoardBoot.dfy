/** The board from power-on: two boots in which everything is as it should be, and DXE
    still changes a protected register or does not come up. */
module BoardBoot {
  import opened CmosTypes
  import opened BitFields
  import opened CmosModel
  import opened Coherence
  import opened TokenLaws
  import opened StatusUpdates
  import opened Runs
  import opened Boot
  import opened HandOff
  import opened Refinement
  import opened Recovery
  import opened EndToEnd
  import opened WholeBoot
  import opened Board

  /** CMOS is usable, its battery is bad, and PEI does not recover: it virtualizes. */
  const START: PeiInput :=
    PeiInput(Zeros(128), Zeros(10), false, Answers([true], [], [], [], []), Policy(false, false), 0, true)

  /** A client writes the protected register once the block exists. */
  const STORE: Op := WriteOp(AllBits(DATA), 1)
  /** The PEI entry is called again. */
  const AGAIN: Op := StatusOp({InterfaceAlreadyInstalled}, true)

  /** One operation after the block exists, then DXE. */
  function After(op: Op, a: Answers, policy: Policy, installed: bool): Course {
    Course([], 0, 0xffff, 0xffff, [op], a, policy, installed)
  }

  lemma StartIsSound()
    ensures Sound(PowerOn(BOARD, START)) && CoversRange(PowerOn(BOARD, START))
    ensures WillVirtualize(PowerOn(BOARD, START), START.answers, START.policy)
  {
    hide WellFormed, Layout, Summed, NewPei, Coherent;
    BoardIsWellFormed(true);
    BoardLayout(true);
    NewPeiEffect(BOARD, START.cells, START.table, false);
  }

  lemma BoardSpare()
    ensures GoodSpare(BOARD, 0xffff)
    ensures Copied(BOARD.noChecksum, 0xffff) == BOARD.noChecksum
    ensures Copied(BOARD.unmanaged, 0xffff) == BOARD.unmanaged
  {
  }

  lemma AfterIsProper(op: Op, a: Answers, policy: Policy, installed: bool)
    requires op == STORE || op == AGAIN
    ensures Proper(BOARD, After(op, a, policy, installed))
  {
    hide GoodSpare, Copied;
    BoardSpare();
    TokenCodeRoundTrip(DATA);
  }

  /** The state in which the client finds PEI. */
  function WithBlock(): State { AfterMemory(EndOfPei(BOARD, START), 0, 0xffff, 0xffff) }

  lemma WithBlockFacts()
    ensures var s := WithBlock();
      && Good(s) && s.cfg == BOARD && |s.table| == 10 && s.table[3] == 0
      && s.hob.Some? && HobInStep(s) && ErrorLoadingDefaults !in s.status
      && OptimalDefaultsEnabled in s.status
  {
    hide Sound, NewPei, PeiEntry, Coherent, WillVirtualize, GoodSpare, Copied, AfterMemory;
    var s := EndOfPei(BOARD, START);
    StartIsSound();
    BoardSpare();
    PowerOnFacts(BOARD, START);
    PeiEndsGood(BOARD, START.cells, START.table, false, START.answers, START.policy, 0, true);
    PeiBootIsCoherent(BOARD, START.cells, START.table, false, START.answers, START.policy, 0, true);
    VirtualizedShowsTable(BOARD, START, 0x42);
    AfterMemoryGood(s, 0, 0xffff, 0xffff);
    AfterMemoryLeavesBit(s, 0, 0xffff, 0xffff, OptimalDefaultsEnabled);
    AfterMemoryEffect(s, 0, 0xffff, 0xffff);
  }

  lemma OneOperation(op: Op, a: Answers, policy: Policy, installed: bool)
    ensures HandedOver(BOARD, START, After(op, a, policy, installed)) == Step(WithBlock(), op)
  {
    hide PeiEntry, AfterMemory, Step;
    var s := WithBlock();
    assert Run(EndOfPei(BOARD, START), []) == EndOfPei(BOARD, START);
    assert Run(s, [op]) == Run(Step(s, op), []) == Step(s, op);
  }

  // ---- The flush from power-on -------------------------------------------------------------------------

  lemma StoreInBuffer(s: State)
    requires Steady(s) && s.cfg == BOARD && OptimalDefaultsEnabled in s.status && |s.table| == 10
    ensures var s' := Step(s, STORE);
      && s'.cfg == BOARD && |s'.table| == 10 && s'.table[3] == s.table[3]
      && ReadField(s', DATA, 0) == 1 && OptimalDefaultsEnabled in s'.status
  {
    hide Steady, NotChecksummed, Unmanaged, WriteField, ReadField, Overflows;
    TokenCodeRoundTrip(DATA);
    assert BOARD.tokens[7] == DATA;
    WholeByte(0, 1, DATA);
    assert Step(s, STORE) == WriteField(s, DATA, 1);
    Exclusions(true, 0x42);
    BoardLayout(true);
    SteadyFits(s);
    ManagedRegisterExists(s, 0x47);
    WriteThenRead(s, DATA, 1, 0);
    WriteFieldView(s, DATA, 1, 0x42);
    WriteFieldBuffer(s);
  }

  lemma SteadyFits(s: State)
    requires Steady(s)
    ensures Fits(s)
  {
  }

  lemma WriteFieldBuffer(s: State)
    requires OptimalDefaultsEnabled in s.status
    ensures OptimalDefaultsEnabled in WriteField(s, DATA, 1).status
  {
    hide Replace, Overflows, Merge, Encode, FieldMask, Reach;
    var c := Reach(s, DATA.address);
    var after := Merge(Peek(s, c, 0), FieldMask(DATA), Encode(1, DATA));
    ReplaceShape(s, DATA.address, c, after);
    var s' := Replace(s, DATA.address, c, after);
    assert OptimalDefaultsEnabled in s'.status <==> OptimalDefaultsEnabled in s'.status * ROUTING;
    assert OptimalDefaultsEnabled in s.status * ROUTING;
  }

  lemma FlushedData(d: State, a: Answers, policy: Policy, installed: bool)
    requires Steady(d) && ErrorLoadingDefaults !in d.status && d.cfg == BOARD && WillFlush(d, a)
    requires |d.table| == 10 && d.table[3] == 0
    ensures ReadField(DxeEntry(d, a, policy, installed), DATA, 0) == 0
  {
    hide Layout, DxeEntry, Open, View, NotChecksummed, Unmanaged, Decode, UsableAfter, Reach;
    BoardIndexes();
    BoardLayout(true);
    var d' := DxeEntry(d, a, policy, installed);
    DxeEntryView(d, a, policy, installed, 0x47);
    OpenKeepsDefault(d, a, policy, 0x47);
    DxeEntryFits(d, a, policy, installed);
    ManagedRegisterExists(d', 0x47);
    ReadFieldIsView(d', DATA, 0);
    WholeByte(0, 0, DATA);
  }

  /** From power-on with a bad battery: PEI virtualizes, a client writes 1 to the
      protected token and reads it back, and after every DXE entry that finds CMOS
      usable the token reads 0. */
  lemma FlushCorruptsFromPowerOn(a: Answers, policy: Policy, installed: bool)
    requires LastSaysYes(a.usable)
    ensures var k := After(STORE, a, policy, installed);
      && Sound(PowerOn(BOARD, START)) && Proper(BOARD, k) && HandedOver(BOARD, START, k).hob.Some?
      && ReadField(HandedOver(BOARD, START, k), DATA, 0) == 1
      && ReadField(EndOfDxe(BOARD, START, k), DATA, 0) == 0
  {
    hide Sound, Steady, NewPei, HandedOver, WithBlock, Step, Proper, DxeEntry, WillVirtualize, Coherent, ReadField;
    var k := After(STORE, a, policy, installed);
    var s := WithBlock();
    StartIsSound();
    AfterIsProper(STORE, a, policy, installed);
    WithBlockFacts();
    SoundSteady(s);
    OneOperation(STORE, a, policy, installed);
    StoreInBuffer(s);
    HandedOverSteady(BOARD, START, k);
    HandedOverProceeds(BOARD, START, k);
    FlushedData(FromHob(HandedOver(BOARD, START, k)), a, policy, installed);
  }

  // ---- A second PEI entry ------------------------------------------------------------------------------

  lemma AgainBits(s: State)
    requires Layout(s.cfg)
    ensures InterfaceAlreadyInstalled in Step(s, AGAIN).status
    ensures forall f :: f in {ValidInterface, OptimalDefaultsEnabled} ==>
      (f in Step(s, AGAIN).status <==> f in s.status)
  {
    hide SetClear, Layout;
    BitAfterSetClear(s, {InterfaceAlreadyInstalled}, true, InterfaceAlreadyInstalled);
    BitAfterSetClear(s, {InterfaceAlreadyInstalled}, true, ValidInterface);
    BitAfterSetClear(s, {InterfaceAlreadyInstalled}, true, OptimalDefaultsEnabled);
  }

  lemma WithBlockIsValid()
    ensures ValidInterface in WithBlock().status
  {
    hide Sound, NewPei, PeiEntry, Coherent, WillVirtualize, AfterMemory;
    StartIsSound();
    PowerOnFacts(BOARD, START);
    PeiEndProceeds(BOARD, START);
    PeiEndsGood(BOARD, START.cells, START.table, false, START.answers, START.policy, 0, true);
    AfterMemoryLeavesBit(EndOfPei(BOARD, START), 0, 0xffff, 0xffff, ValidInterface);
  }

  /** The same boot, but the PEI entry is called a second time once the block exists:
      DXE reports success for every set of answers, yet it neither flushes the buffer
      nor installs its interface, although CMOS may be usable. */
  lemma SecondEntryStopsDxe(a: Answers, policy: Policy, installed: bool)
    ensures var k := After(AGAIN, a, policy, installed);
            var h := HandedOver(BOARD, START, k);
      && Sound(PowerOn(BOARD, START)) && Proper(BOARD, k)
      && h == EnterAgain(WithBlock()).1 && EnterAgain(WithBlock()).0 == Success
      && h.hob.Some? && DxeStatus(FromHob(h), installed) == Success
      && EndOfDxe(BOARD, START, k) == Open(FromHob(h), a, policy)
      && OptimalDefaultsEnabled in EndOfDxe(BOARD, START, k).status
  {
    hide Sound, Steady, NewPei, HandedOver, WithBlock, Proper, Open, WillVirtualize, Coherent, SetClear, UsableAfter;
    hide Routed;
    var k := After(AGAIN, a, policy, installed);
    var s := WithBlock();
    StartIsSound();
    AfterIsProper(AGAIN, a, policy, installed);
    WithBlockFacts();
    WithBlockIsValid();
    BoardLayout(true);
    OneOperation(AGAIN, a, policy, installed);
    AgainBits(s);
    HandedOverSteady(BOARD, START, k);
    OpenForDxe(FromHob(HandedOver(BOARD, START, k)), a, policy);
  }
}
