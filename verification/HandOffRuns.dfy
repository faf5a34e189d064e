/** What PEI and its clients carry to the hand-off besides a coherent view: the
    interface pointer, the block's copy of the checksum, and the loaded registers. */
module HandOffRuns {
  import opened CmosTypes
  import opened BitFields
  import opened CmosModel
  import opened Coherence
  import opened StatusUpdates
  import opened Loader
  import opened ApiPointer
  import opened Clock
  import opened Runs
  import opened Interleaving
  import opened Boot
  import opened HandOff
  import opened Refinement
  import opened Recovery
  import opened EndToEnd
  import opened Diagnosis
  import opened WholeBoot
  import opened ClientCodes

  // ---- The pointer over a run ------------------------------------------------------------------------

  /** The operation addresses no pointer register and saves no other pointer. */
  predicate LeavesPointer(op: Op) {
    match op
    case WriteOp(code, _) => !IsApiRegister(if code < 4096 then code else TokenOf(code).address)
    case SaveApiOp(_) => false
    case _ => true
  }

  lemma WriteKeepsPointer(s: State, code: word, v: byte)
    requires Sound(s) && LeavesPointer(WriteOp(code, v))
    ensures forall a :: IsApiRegister(a) ==> Cmos(Write(s, code, v).1, a) == Cmos(s, a)
  {
    hide WellFormed, Steady, Backed, HasToken, TokenOf, WriteField, Overflows, BankWrite;
    WellFormedLayout(s.cfg);
    forall a | IsApiRegister(a) ensures Cmos(Write(s, code, v).1, a) == Cmos(s, a) {
      ApiIsData(s.cfg, a);
      match Decide(s, code, true)
      case Refuse(_) =>
      case Bank(b) => BankWriteElsewhere(s, b, v, a);
      case Field(t) => TokenWriteFrame(s, t, v);
    }
  }

  lemma BankWriteElsewhere(s: State, b: nat, v: byte, a: nat)
    requires a != b
    ensures Cmos(BankWrite(s, b, v), a) == Cmos(s, a)
  {
  }

  lemma StepKeepsPointer(s: State, op: Op)
    requires Good(s) && LeavesPointer(op)
    ensures GetUpTo(Step(s, op), 4) == GetUpTo(s, 4)
  {
    hide WellFormed, Layout, SetClear, SetTime, Write, Sum, StoredChecksum, GetUpTo, Cmos, IsStatusRegister, Coherent;
    WellFormedLayout(s.cfg);
    SamePointer(s, Step(s, op));
    match op {
      case ReadOp(_, _) =>
      case WriteOp(code, v) => WriteKeepsPointer(s, code, v);
      case SetTimeOp(t) => SetTimeKeepsPointer(s, t);
      case StatusOp(bits, on) => StatusKeepsPointer(s, bits, on);
      case RecalculateOp => StatusKeepsPointer(s, {BadChecksum}, StoredChecksum(s) != Sum(s) % 0x1_0000);
    }
  }

  lemma SetTimeKeepsPointer(s: State, t: Time)
    requires Sound(s)
    ensures forall a :: IsApiRegister(a) ==> Cmos(SetTime(s, t), a) == Cmos(s, a)
  {
    hide WellFormed, Layout, SetTime, Backed, Cmos, HoldsTime, ApiLayout, ClockLayout;
    WellFormedLayout(s.cfg);
    assert IsClockRegister(CENTURY_REGISTER);
    BackedExists(s, CENTURY_REGISTER);
    SetTimeStores(s, t);
  }

  lemma StatusKeepsPointer(s: State, bits: Bitmap, on: bool)
    requires Layout(s.cfg) && ApiLayout(s.cfg)
    ensures forall a :: IsApiRegister(a) ==> Cmos(SetClear(s, bits, on), a) == Cmos(s, a)
  {
    hide SetClear, Layout, Undisturbed, IsStatusRegister, ApiLayout;
    SetClearEffect(s, bits, on);
    forall a | IsApiRegister(a) ensures Cmos(SetClear(s, bits, on), a) == Cmos(s, a) { ApiIsData(s.cfg, a); }
  }

  lemma {:induction false} RunKeepsPointer(s: State, ops: seq<Op>)
    requires Good(s) && forall op :: op in ops ==> Safe(s.cfg, op) && LeavesPointer(op)
    ensures GetUpTo(Run(s, ops), 4) == GetUpTo(s, 4)
    decreases |ops|
  {
    hide Good, Step, Safe, LeavesPointer, GetUpTo, Coherent;
    if ops != [] {
      StepKeepsPointer(s, ops[0]);
      StepKeepsGood(s, ops[0]);
      RunKeepsPointer(Step(s, ops[0]), ops[1..]);
    }
  }

  // ---- The block's checksum over a run --------------------------------------------------------------------

  /** The block's copy is the checksum stored in the view. */
  predicate BlockKnowsSum(s: State) { s.hob.Some? ==> s.hob.value.checksum == StoredChecksum(s) }

  /** Every checksum that is stored is noted in the block. */
  lemma StoreChecksumNotes(s: State, w: word)
    requires ChecksumLayout(s.cfg) && Fits(s)
    ensures BlockKnowsSum(StoreChecksum(s, w))
    ensures s.hob.Some? ==> StoreChecksum(s, w).hob.Some? && StoreChecksum(s, w).hob.value.checksum == w
  {
    StoreChecksumEffect(s, w);
    hide View, Reach, StoredChecksum;
  }

  lemma QuietKeepsBlockSum(s: State, s': State)
    requires BlockKnowsSum(s) && Undisturbed(s, s') && BlockSumKept(s, s')
    ensures BlockKnowsSum(s')
  {
    hide View, Sum, StoredChecksum;
    UndisturbedKeepsChecksum(s, s');
  }

  lemma WriteFieldBlockSum(s: State, t: Token, v: byte)
    requires Steady(s) && ForceNoChecksum !in s.status && BlockKnowsSum(s) && ProperField(t)
    requires !IsChecksumRegister(s.cfg, t.address)
    ensures BlockKnowsSum(WriteField(s, t, v))
  {
    hide View, Overflows, Merge, Encode, FieldMask, NotChecksummed, Unmanaged, StoredChecksum, Layout;
    var c := Reach(s, t.address);
    var after := Merge(Peek(s, c, 0), FieldMask(t), Encode(v, t));
    LayoutParts(s.cfg);
    if !Overflows(v, t) && c != Nowhere {
      if Excluded(s.cfg, t.address) {
        ExcludedWriteUndisturbed(s, t.address, c, after);
        QuietKeepsBlockSum(s, WriteField(s, t, v));
      } else {
        var s2 := Flip(Poke(s, c, after), {AddressIsChecksummed}, true);
        SteadinessKept(s, s2);
        StoreChecksumNotes(s2, UpdatedChecksum(StoredChecksum(s), Peek(s, c, 0), after));
      }
    }
  }

  lemma StatusBlockSum(s: State, bits: Bitmap, on: bool)
    requires Steady(s) && BlockKnowsSum(s) && bits !! ROUTING
    ensures BlockKnowsSum(SetClear(s, bits, on))
  {
    hide SetClear, Layout, View, Summed, StoredChecksum, IsStatusRegister;
    SetClearEffect(s, bits, on);
    var s0 := Assign(s, bits, on);
    assert SameRouting(s, s0);
    SameStoreUndisturbed(s, s0);
    UndisturbedKeepsChecksum(s, s0);
    QuietKeepsBlockSum(s0, SetClear(s, bits, on));
  }

  lemma StepKeepsBlockSum(s: State, op: Op)
    requires Good(s) && Safe(s.cfg, op) && BlockKnowsSum(s)
    ensures BlockKnowsSum(Step(s, op))
  {
    hide WellFormed, Layout, SetClear, SetTime, WriteField, SaveApi, Sum, StoredChecksum, View, TokenOf, HasToken;
    hide BankWrite, ApiLayout, Backed, BlockKnowsSum;
    WellFormedLayout(s.cfg);
    LayoutParts(s.cfg);
    match op {
      case ReadOp(_, _) =>
      case WriteOp(code, v) => WriteBlockSum(s, code, v);
      case SetTimeOp(t) =>
        SetTimeUnnoticed(s, t);
        QuietKeepsBlockSum(s, SetTime(s, t));
      case StatusOp(bits, on) => StatusBlockSum(s, bits, on);
      case SaveApiOp(p) =>
        assert IsApiRegister(API_BYTE3 + 3);
        BackedExists(s, API_BYTE3 + 3);
        SaveApiKeepsChecksum(s, p);
        QuietKeepsBlockSum(s, SaveApi(s, p).1);
      case RecalculateOp => StatusBlockSum(s, {BadChecksum}, StoredChecksum(s) != Sum(s) % 0x1_0000);
    }
  }

  lemma WriteBlockSum(s: State, code: word, v: byte)
    requires Good(s) && !NamesChecksum(s.cfg, code) && BlockKnowsSum(s)
    ensures BlockKnowsSum(Write(s, code, v).1)
  {
    hide WellFormed, Layout, WriteField, Sum, View, TokenOf, HasToken, BankWrite, Backed, BlockKnowsSum, Excluded;
    match Decide(s, code, true)
    case Refuse(_) =>
    case Bank(a) =>
      RawCodeIsUnprotected(s, code);
      BankWriteUnnoticed(s, a, v);
      QuietKeepsBlockSum(s, BankWrite(s, a, v));
    case Field(t) => WriteFieldBlockSum(s, t, v);
  }

  lemma RawCodeIsUnprotected(s: State, code: word)
    requires Layout(s.cfg) && Decide(s, code, true) == Decision.Bank(code)
    ensures !Summed(s.cfg, code) && !IsChecksumRegister(s.cfg, code)
  {
    hide NotChecksummed, Unmanaged;
  }

  lemma {:induction false} RunKeepsBlockSum(s: State, ops: seq<Op>)
    requires Good(s) && BlockKnowsSum(s) && forall op :: op in ops ==> Safe(s.cfg, op)
    ensures BlockKnowsSum(Run(s, ops))
    decreases |ops|
  {
    hide Good, Step, Safe, BlockKnowsSum, Coherent;
    if ops != [] {
      StepKeepsBlockSum(s, ops[0]);
      StepKeepsGood(s, ops[0]);
      RunKeepsBlockSum(Step(s, ops[0]), ops[1..]);
    }
  }

  // ---- From power-on -------------------------------------------------------------------------------------

  ghost predicate Powered(c: Config, i: PeiInput) {
    Sound(PowerOn(c, i)) && TableSuffices(PowerOn(c, i), i.answers, i.policy)
  }

  /** PEI saves the pointer exactly where CMOS is usable and the boot processor executes;
      otherwise the registers keep what they held at power-on. */
  lemma PointerBeforeDecision(c: Config, i: PeiInput)
    requires Steady(PowerOn(c, i)) && ApiLayout(c) && API_BYTE3 + 4 <= |i.cells|
    ensures GetUpTo(BeforeDecision(c, i), 4) ==
      if LastSaysYes(i.answers.usable) && true in i.answers.bsp then i.p else GetUpTo(PowerOn(c, i), 4)
  {
    hide NewPei, Open, Layout, ApiLayout, GetUpTo, Cmos, IsStatusRegister, SaveApi, Load, Coherent;
    var s := PowerOn(c, i);
    var o := Open(s, i.answers, i.policy);
    NewPeiEffect(c, i.cells, i.table, i.inMemory);
    assert ErrorLoadingDefaults in GUARDED;
    OpenDiagnoses(s, i.answers, i.policy);
    OpenCalm(s, i.answers, i.policy);
    OpenStatus(s, i.answers, i.policy, IsUsable);
    OpenStatus(s, i.answers, i.policy, BspIsExecuting);
    if {IsUsable, BspIsExecuting} <= o.status {
      PrepareSavesPointer(o, i.p);
    } else {
      SamePointer(s, o);
      forall a | IsApiRegister(a) ensures Cmos(o, a) == Cmos(s, a) {
        ApiIsData(c, a);
        CalmCell(s, o, a);
      }
    }
  }

  lemma CalmCell(s: State, s': State, a: nat)
    requires Calm(s, s') && !Housekeeping(s.cfg, a)
    ensures Cmos(s', a) == Cmos(s, a)
  {
    hide IsStatusRegister;
  }

  lemma PeiEndUsable(c: Config, i: PeiInput)
    requires Steady(PowerOn(c, i)) && ApiLayout(c) && API_BYTE3 + 4 <= |i.cells|
    ensures IsUsable in EndOfPei(c, i).status <==> LastSaysYes(i.answers.usable)
  {
    hide NewPei, Open, Prepare, Settle, Install, Layout, ApiLayout, SameStore, Diagnosed;
    var s := PowerOn(c, i);
    var o := Open(s, i.answers, i.policy);
    var m := Prepare(o, i.p);
    NewPeiEffect(c, i.cells, i.table, i.inMemory);
    PowerOnProceeds(c, i);
    OpenDiagnoses(s, i.answers, i.policy);
    assert ErrorLoadingDefaults in GUARDED;
    TableBeforeDecision(c, i.cells, i.table, i.inMemory, i.answers, i.policy, i.p);
    OpenStatus(s, i.answers, i.policy, IsUsable);
    PrepareBit(o, i.p, IsUsable);
    SettleLeavesBit(m, IsUsable);
    InstallLeavesBit(Settle(m), i.installed, IsUsable);
  }

  /** On usable CMOS the pointer saved once memory is there is the one that DXE finds,
      whatever PEI recovered before and whatever clients do that leave it alone. */
  lemma PointerIsHandedOver(c: Config, i: PeiInput, k: Course)
    requires Powered(c, i) && i.installed && Proper(c, k)
    requires LastSaysYes(i.answers.usable) && forall op :: op in k.late ==> LeavesPointer(op)
    ensures HandedOver(c, i, k).hob.Some?
    ensures GetUpTo(FromHob(HandedOver(c, i, k)), 4) == k.p
  {
    hide Sound, TableSuffices, NewPei, PeiEntry, Run, AfterMemory, Coherent, Safe, Leaves, GoodSpare, SameTables;
    hide Steady, GetUpTo, LeavesPointer, Copied, ApiLayout;
    var s1 := EndOfPei(c, i);
    PowerOnFacts(c, i);
    PeiEndUsable(c, i);
    PeiEndsGood(c, i.cells, i.table, i.inMemory, i.answers, i.policy, i.p, i.installed);
    var s2 := Run(s1, k.early);
    RunKeepsCoherence(s1, k.early);
    assert IsUsable in s1.status <==> IsUsable in s1.status * ROUTING;
    assert IsUsable in s2.status <==> IsUsable in s2.status * ROUTING;
    var s3 := AfterMemory(s2, k.p, k.spare, k.spare');
    AfterMemoryGood(s2, k.p, k.spare, k.spare');
    AfterMemoryEffect(s2, k.p, k.spare, k.spare');
    forall op | op in k.late ensures Safe(s3.cfg, op) { SafeForBoth(c, s3.cfg, op); }
    RunKeepsPointer(s3, k.late);
    RunKeepsCoherence(s3, k.late);
    SameCellsSamePointer(Run(s3, k.late), FromHob(Run(s3, k.late)));
  }

  /** A PEI entry that loaded nothing ends with its copy of the checksum in step. */
  lemma PeiKnowsSum(c: Config, i: PeiInput)
    requires Powered(c, i)
    requires var s := PowerOn(c, i);
      !LoadsFirst(s, i.answers, i.policy) && !WillRecover(s, i.answers, i.policy)
    ensures EndOfPei(c, i).checksum == StoredChecksum(EndOfPei(c, i))
  {
    hide Sound, NewPei, Open, Layout, ApiLayout, BufferOn, Install, Sum, View, StoredChecksum, WillRecover, LoadsFirst;
    hide WillVirtualize, SaveApi, Load, Routed, UsableAfter, Flush;
    var s := PowerOn(c, i);
    var o := Open(s, i.answers, i.policy);
    var m := BeforeDecision(c, i);
    PowerOnFacts(c, i);
    NewPeiEffect(c, i.cells, i.table, i.inMemory);
    assert ForceNoChecksum in GUARDED && ErrorLoadingDefaults in GUARDED && OptimalDefaultsEnabled in GUARDED;
    OpenDiagnoses(s, i.answers, i.policy);
    OpenKnowsTheSum(s, i.answers, i.policy);
    PowerOnProceeds(c, i);
    FirstLoadIff(s, i.answers, i.policy);
    SaveApiKeepsChecksum(o, i.p);
    PrepareEffect(o, i.p);
    VirtualizesIff(s, i.answers, i.policy, i.p);
    TableBeforeDecision(c, i.cells, i.table, i.inMemory, i.answers, i.policy, i.p);
    assert m.checksum == Sum(m) by {
      if m != o { UndisturbedKeepsChecksum(o, m); }
    }
    if Bad(m) {
      BufferOnDiagnoses(m);
      InstallEffect(BufferOn(m), i.installed);
      UndisturbedKeepsChecksum(BufferOn(m), EndOfPei(c, i));
    } else {
      assert BadChecksum !in m.status * {BadChecksum, BadBattery};
      InstallEffect(m, i.installed);
      UndisturbedKeepsChecksum(m, EndOfPei(c, i));
    }
  }

  /** If PEI loaded nothing and no client wrote before the block was made, the checksum
      that DXE takes from the block is the one stored in the view, whatever clients
      write afterwards. */
  lemma BlockSumIsHandedOver(c: Config, i: PeiInput, k: Course)
    requires Powered(c, i) && i.installed && Proper(c, k) && k.early == []
    requires var s := PowerOn(c, i);
      !LoadsFirst(s, i.answers, i.policy) && !WillRecover(s, i.answers, i.policy)
    ensures HandedOver(c, i, k).hob.Some?
    ensures FromHob(HandedOver(c, i, k)).checksum == StoredChecksum(HandedOver(c, i, k))
  {
    hide Sound, TableSuffices, NewPei, PeiEntry, AfterMemory, Coherent, Safe, Leaves, GoodSpare, SameTables;
    hide Steady, Copied, ApiLayout, StoredChecksum, WillRecover, LoadsFirst;
    var s1 := EndOfPei(c, i);
    PowerOnFacts(c, i);
    PeiEndsGood(c, i.cells, i.table, i.inMemory, i.answers, i.policy, i.p, i.installed);
    PeiKnowsSum(c, i);
    assert Run(s1, k.early) == s1;
    var s3 := AfterMemory(s1, k.p, k.spare, k.spare');
    AfterMemoryGood(s1, k.p, k.spare, k.spare');
    AfterMemoryEffect(s1, k.p, k.spare, k.spare');
    AfterMemoryStored(s1, k.p, k.spare, k.spare');
    forall op | op in k.late ensures Safe(s3.cfg, op) { SafeForBoth(c, s3.cfg, op); }
    RunKeepsBlockSum(s3, k.late);
    RunKeepsCoherence(s3, k.late);
  }

  lemma AfterMemoryStored(s: State, p: pointer, spare: nat, spare': nat)
    requires ApiLayout(s.cfg) && API_BYTE3 + 4 <= |s.cells|
    ensures StoredChecksum(AfterMemory(s, p, spare, spare')) == StoredChecksum(s)
  {
    hide SaveApi, SetClear, ApiLayout, Copied, Coherent, View, StoredChecksum;
    var s1 := SaveApi(s, p).1;
    SaveApiKeepsChecksum(s, p);
    UndisturbedKeepsChecksum(s, s1);
    PlainSetClear(s1, {ExecutingInMemory}, true);
    FlipUndisturbed(s1, {ExecutingInMemory}, true);
    var s2 := SetClear(s1, {ExecutingInMemory}, true);
    UndisturbedKeepsChecksum(s1, s2);
    CreateHobStored(s2, spare, spare');
  }

  lemma CreateHobStored(s: State, spare: nat, spare': nat)
    ensures StoredChecksum(CreateHob(s, spare, spare')) == StoredChecksum(s)
  {
    hide Entries, Copied;
    CopiedEntries(s.cfg.noChecksum, spare);
    CopiedEntries(s.cfg.unmanaged, spare');
    var s' := CreateHob(s, spare, spare');
    SameTablesClassify(s.cfg, s'.cfg, s.cfg.checksumLow.address);
    SameTablesClassify(s.cfg, s'.cfg, s.cfg.checksumHigh.address);
  }

  // ---- The protected registers after PEI ----------------------------------------------------------------------

  /** The loader reaches the entry of a protected register. */
  predicate HasEntry(c: Config, table: seq<byte>, r: nat) { 0 <= DefaultIndex(c, r) < |table| }

  lemma LoadedProtected(s: State, r: nat)
    requires Steady(s) && Summed(s.cfg, r)
    ensures Cmos(Load(s).1, r) ==
      if HasEntry(s.cfg, s.table, r) then s.table[DefaultIndex(s.cfg, r)] else Cmos(s, r)
  {
    hide Load, Layout, BeginLoad, NotChecksummed, Unmanaged, Restricted, IsStatusRegister, DefaultIndex;
    SummedIsData(s.cfg, r);
    SteadyCells(s, r);
    BeginLoadEffect(s);
    LoadedRegister(s, r);
  }

  lemma SteadyCells(s: State, r: nat)
    requires Steady(s) && Managed(s.cfg, r)
    ensures r < |s.cells|
  {
  }

  lemma PreparedProtected(s: State, p: pointer, r: nat)
    requires Steady(s) && Summed(s.cfg, r) && ApiLayout(s.cfg) && API_BYTE3 + 4 <= |s.cells|
    requires ErrorLoadingDefaults !in s.status
    ensures Cmos(Prepare(s, p), r) ==
      if {IsUsable, BspIsExecuting, FirstBootDetected, ColdBootDetected} <= s.status && HasEntry(s.cfg, s.table, r)
      then s.table[DefaultIndex(s.cfg, r)] else Cmos(s, r)
  {
    hide Load, Layout, HasEntry, Cmos, SaveFrom, NotChecksummed, Unmanaged, IsStatusRegister, ApiByte, DefaultIndex;
    LoadedProtected(s, r);
    ProtectedIsNotPointer(s.cfg, r);
    if {IsUsable, BspIsExecuting} <= s.status {
      var s1 := if {FirstBootDetected, ColdBootDetected} <= s.status then Load(s).1 else s;
      if {FirstBootDetected, ColdBootDetected} <= s.status { LoadStatus(s); }
      SaveFromEffect(s1, p, 0);
    }
  }

  lemma ProtectedIsNotPointer(c: Config, r: nat)
    requires ApiLayout(c) && Summed(c, r)
    ensures !IsApiRegister(r)
  {
    hide NotChecksummed, Unmanaged;
  }

  lemma SettledProtected(s: State, r: nat)
    requires Steady(s) && Summed(s.cfg, r) && ErrorLoadingDefaults !in s.status
    ensures Cmos(Settle(s), r) ==
      if Bad(s) && RecoversInPei(s) && HasEntry(s.cfg, s.table, r)
      then s.table[DefaultIndex(s.cfg, r)] else Cmos(s, r)
  {
    hide Load, Layout, HasEntry, Cmos, BufferOn, NotChecksummed, Unmanaged, IsStatusRegister, Bad, RecoversInPei;
    hide DefaultIndex;
    SummedIsData(s.cfg, r);
    LoadedProtected(s, r);
    if Bad(s) && RecoversInPei(s) {
      BufferOffEffect(Load(s).1);
      CellsDecide(Load(s).1, Flush(s));
    } else if Bad(s) {
      BufferOnCells(s);
      SameCellsAt(s, BufferOn(s), r);
    }
  }

  lemma SameCellsAt(s: State, s': State, r: nat)
    requires SameCells(s, s') && !Housekeeping(s.cfg, r)
    ensures Cmos(s', r) == Cmos(s, r)
  {
    hide IsStatusRegister;
  }

  /** Physical CMOS at the end of PEI: a protected register holds its entry of the built
      table exactly if PEI loaded on a first cold boot or recovered, and otherwise what it
      held at power-on. */
  lemma ProtectedAfterPei(c: Config, i: PeiInput, r: nat)
    requires Steady(PowerOn(c, i)) && ApiLayout(c) && API_BYTE3 + 4 <= |i.cells| && Summed(c, r)
    ensures var s := PowerOn(c, i);
      Cmos(EndOfPei(c, i), r) ==
        if (LoadsFirst(s, i.answers, i.policy) || WillRecover(s, i.answers, i.policy)) && HasEntry(c, i.table, r)
        then i.table[DefaultIndex(c, r)] else Cmos(s, r)
  {
    hide NewPei, Open, Prepare, Settle, Install, Layout, ApiLayout, Cmos, NotChecksummed, Unmanaged, HasEntry;
    hide WillRecover, UsableAfter, IsStatusRegister, Coherent, DefaultIndex;
    var s := PowerOn(c, i);
    var o := Open(s, i.answers, i.policy);
    var m := Prepare(o, i.p);
    NewPeiEffect(c, i.cells, i.table, i.inMemory);
    assert ErrorLoadingDefaults in GUARDED && OptimalDefaultsEnabled in GUARDED;
    OpenDiagnoses(s, i.answers, i.policy);
    OpenCalm(s, i.answers, i.policy);
    SummedIsData(c, r);
    CalmCell(s, o, r);
    PowerOnProceeds(c, i);
    FirstLoadIff(s, i.answers, i.policy);
    PreparedProtected(o, i.p, r);
    TableBeforeDecision(c, i.cells, i.table, i.inMemory, i.answers, i.policy, i.p);
    VirtualizesIff(s, i.answers, i.policy, i.p);
    SettledProtected(m, r);
    InstallEffect(Settle(m), i.installed);
    CellsDecide(Settle(m), EndOfPei(c, i));
  }

  lemma FirstLoadIff(s: State, a: Answers, policy: Policy)
    requires Steady(s)
    ensures LoadsFirst(s, a, policy) <==>
      {IsUsable, BspIsExecuting, FirstBootDetected, ColdBootDetected} <= Open(s, a, policy).status
  {
    hide Open, Layout, UsableAfter;
    OpenStatus(s, a, policy, IsUsable);
    OpenStatus(s, a, policy, BspIsExecuting);
    OpenStatus(s, a, policy, FirstBootDetected);
    OpenStatus(s, a, policy, ColdBootDetected);
  }
}
