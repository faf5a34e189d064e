/** The whole boot: from arbitrary CMOS contents at power-on, through PEI, memory,
    hand-off and DXE, to run time with DXE and SMM side by side. */
module WholeBoot {
  import opened CmosTypes
  import opened CmosModel
  import opened Coherence
  import opened TokenLaws
  import opened StatusUpdates
  import opened Loader
  import opened ApiPointer
  import opened Runs
  import opened Interleaving
  import opened Boot
  import opened HandOff
  import opened Refinement
  import opened Recovery
  import opened EndToEnd
  import opened SplitMode

  /** What happens from the end of the PEI entry to the end of the DXE entry. */
  datatype Course = Course(
    early: seq<Op>, p: pointer, spare: nat, spare': nat, late: seq<Op>,
    answers: Answers, policy: Policy, installed: bool)

  /** PEI, clients, the block, clients again: the state that is handed over. */
  function HandedOver(c: Config, i: PeiInput, k: Course): State {
    Run(AfterMemory(Run(EndOfPei(c, i), k.early), k.p, k.spare, k.spare'), k.late)
  }

  function EndOfDxe(c: Config, i: PeiInput, k: Course): State
    requires HandedOver(c, i, k).hob.Some?
  {
    DxeEntry(FromHob(HandedOver(c, i, k)), k.answers, k.policy, k.installed)
  }

  /** Clients are safe, and nobody raises the loading-error bit by hand. */
  ghost predicate Proper(c: Config, k: Course) {
    && GoodSpare(c, k.spare) && GoodSpare(c, k.spare')
    && (forall op :: op in k.early || op in k.late ==> Safe(c, op) && Leaves(op, ErrorLoadingDefaults))
  }

  /** PEI to DXE: whatever CMOS held at power-on and whatever the hooks answer in
      either phase, DXE ends with the invariant exactly when it flushes or finds the
      stored checksum where PEI kept it, and always when it ends without the buffer. */
  lemma PowerOnToDxe(c: Config, i: PeiInput, k: Course)
    requires Sound(PowerOn(c, i)) && TableSuffices(PowerOn(c, i), i.answers, i.policy)
    requires i.installed && Proper(c, k)
    ensures HandedOver(c, i, k).hob.Some?
    ensures var d := FromHob(HandedOver(c, i, k));
            var s' := EndOfDxe(c, i, k);
      && SameTables(c, s'.cfg) && |s'.cells| == |i.cells|
      && (Good(s') <==>
            WillFlush(d, k.answers) || StoredChecksum(Routed(d, k.answers, k.policy)) == StoredChecksum(d))
      && (OptimalDefaultsEnabled in s'.status <==>
            OptimalDefaultsEnabled in d.status && !WillFlush(d, k.answers))
      && (OptimalDefaultsEnabled !in s'.status ==> Good(s'))
  {
    hide Sound, TableSuffices, NewPei, PeiEntry, Run, AfterMemory, Coherent, Safe, Leaves, DxeEntry;
    hide StoredChecksum, Routed, UsableAfter, GoodSpare, SameTables;
    var s1 := EndOfPei(c, i);
    PeiEndsGood(c, i.cells, i.table, i.inMemory, i.answers, i.policy, i.p, i.installed);
    var s2 := Run(s1, k.early);
    RunKeepsCoherence(s1, k.early);
    RunLeavesBit(s1, k.early, ErrorLoadingDefaults);
    var s3 := AfterMemory(s2, k.p, k.spare, k.spare');
    AfterMemoryGood(s2, k.p, k.spare, k.spare');
    forall op | op in k.late ensures Safe(s3.cfg, op) { SafeForBoth(c, s3.cfg, op); }
    BootEndsGood(s3, k.late, k.answers, k.policy, k.installed);
  }

  // ---- The entry checks ------------------------------------------------------------------------------------

  lemma BufferOnLeavesBit(s: State, f: Flag)
    requires Layout(s.cfg) && f !in LOAD_BITS
    ensures f in BufferOn(s).status <==> f in s.status
  {
    hide SetClear, StoreChecksum, Layout, Sum, StoredChecksum;
    if OptimalDefaultsEnabled !in s.status {
      var s1 := SetClear(s, {OptimalDefaultsEnabled}, true);
      var bad := StoredChecksum(s1) != Sum(s1) % 0x1_0000;
      BitAfterSetClear(s, {OptimalDefaultsEnabled}, true, f);
      BitAfterSetClear(s1, {BadChecksum}, bad, f);
      StoreChecksumShape(Recalculate(s1).(checksum := Sum(s1) % 0x1_0000), Sum(s1) % 0x1_0000);
    }
  }

  lemma SettleLeavesBit(s: State, f: Flag)
    requires Steady(s) && ErrorLoadingDefaults !in s.status && f !in LOAD_BITS
    ensures f in Settle(s).status <==> f in s.status
  {
    hide Flush, BufferOn, Load, Layout, Bad, RecoversInPei;
    if Bad(s) && RecoversInPei(s) {
      LoadLeavesBit(s, f);
      FlushShape(s);
    } else if Bad(s) {
      BufferOnLeavesBit(s, f);
    }
  }

  lemma InstallLeavesBit(s: State, installed: bool, f: Flag)
    requires f !in {ValidManager, InstallFailed}
    ensures f in Install(s, installed).status <==> f in s.status
  {
    hide SetClear;
    PlainSetClear(s, {ValidManager}, true);
    PlainSetClear(s, {InstallFailed}, true);
    PlainSetClear(SetClear(s, {InstallFailed}, true), {ValidManager}, false);
  }

  /** PEI itself ends with a manager that passes the entry checks of DXE. */
  lemma PeiEndProceeds(c: Config, i: PeiInput)
    requires Steady(PowerOn(c, i)) && ApiLayout(c) && API_BYTE3 + 4 <= |i.cells|
    ensures Proceeds(EndOfPei(c, i))
  {
    hide NewPei, Open, Prepare, Settle, Install, Layout, ApiLayout, SameStore, Diagnosed;
    var s := PowerOn(c, i);
    var o := Open(s, i.answers, i.policy);
    var m := Prepare(o, i.p);
    NewPeiEffect(c, i.cells, i.table, i.inMemory);
    PowerOnProceeds(c, i);
    OpenDiagnoses(s, i.answers, i.policy);
    assert ErrorLoadingDefaults in GUARDED;
    TableBeforeDecision(c, i.cells, i.table, i.inMemory, i.answers, i.policy, i.p);
    PrepareBit(o, i.p, ValidInterface);
    PrepareBit(o, i.p, InterfaceAlreadyInstalled);
    SettleLeavesBit(m, ValidInterface);
    SettleLeavesBit(m, InterfaceAlreadyInstalled);
    InstallLeavesBit(Settle(m), i.installed, ValidInterface);
    InstallLeavesBit(Settle(m), i.installed, InterfaceAlreadyInstalled);
  }

  lemma AfterMemoryLeavesBit(s: State, p: pointer, spare: nat, spare': nat, f: Flag)
    requires Good(s) && f !in MAINTAINED && f != ExecutingInMemory
    ensures f in AfterMemory(s, p, spare, spare').status <==> f in s.status
  {
    hide Good, SaveApi, SetClear, Copied, Coherent;
    var s1 := Step(s, SaveApiOp(p));
    StepKeepsGood(s, SaveApiOp(p));
    StepLeavesBit(s, SaveApiOp(p), f);
    StepLeavesBit(s1, StatusOp({ExecutingInMemory}, true), f);
  }

  /** Unless a client or a later entry touches the two bits, the state handed over
      passes the entry checks of DXE. */
  lemma HandedOverProceeds(c: Config, i: PeiInput, k: Course)
    requires Sound(PowerOn(c, i)) && TableSuffices(PowerOn(c, i), i.answers, i.policy)
    requires i.installed && Proper(c, k)
    requires forall op :: op in k.early || op in k.late ==>
      Leaves(op, ValidInterface) && Leaves(op, InterfaceAlreadyInstalled)
    ensures Proceeds(HandedOver(c, i, k))
  {
    hide Sound, TableSuffices, NewPei, PeiEntry, Run, AfterMemory, Coherent, Safe, Leaves, GoodSpare, SameTables;
    var s1 := EndOfPei(c, i);
    PowerOnFacts(c, i);
    PeiEndProceeds(c, i);
    PeiEndsGood(c, i.cells, i.table, i.inMemory, i.answers, i.policy, i.p, i.installed);
    var s2 := Run(s1, k.early);
    RunKeepsCoherence(s1, k.early);
    var s3 := AfterMemory(s2, k.p, k.spare, k.spare');
    AfterMemoryGood(s2, k.p, k.spare, k.spare');
    forall op | op in k.late ensures Safe(s3.cfg, op) { SafeForBoth(c, s3.cfg, op); }
    forall f | f in {ValidInterface, InterfaceAlreadyInstalled}
      ensures f in Run(s3, k.late).status <==> f in s1.status
    {
      RunLeavesBit(s1, k.early, f);
      AfterMemoryLeavesBit(s2, k.p, k.spare, k.spare', f);
      RunLeavesBit(s3, k.late, f);
    }
  }

  lemma PowerOnFacts(c: Config, i: PeiInput)
    requires Sound(PowerOn(c, i))
    ensures Steady(PowerOn(c, i)) && ApiLayout(c) && API_BYTE3 + 4 <= |i.cells|
  {
    hide WellFormed, Layout, ApiLayout, NewPei;
    NewPeiEffect(c, i.cells, i.table, i.inMemory);
    WellFormedLayout(c);
    assert IsApiRegister(API_BYTE3 + 3);
    BackedExists(PowerOn(c, i), API_BYTE3 + 3);
  }

  // ---- What a virtualized PEI shows -------------------------------------------------------------------------

  lemma BufferOnSlot(s: State, r: nat)
    requires Steady(s) && CoversRange(s) && OptimalDefaultsEnabled !in s.status
    requires Managed(s.cfg, r) && !IsStatusRegister(s.cfg, r) && !IsChecksumRegister(s.cfg, r)
    ensures |BufferOn(s).table| == |s.table|
    ensures BufferOn(s).table[BufferIndex(s.cfg, r)] == s.table[BufferIndex(s.cfg, r)]
  {
    hide SetClear, StoreChecksum, Sum, StoredChecksum, Layout, IsStatusRegister;
    var s1 := SetClear(s, {OptimalDefaultsEnabled}, true);
    var w: word := Sum(s1) % 0x1_0000;
    var bad := StoredChecksum(s1) != w;
    PlainSetClear(s, {OptimalDefaultsEnabled}, true);
    SetClearEffect(s1, {BadChecksum}, bad);
    StoreChecksumSlot(SetClear(s1, {BadChecksum}, bad).(checksum := w), w, r);
  }

  lemma StoreChecksumSlot(s: State, w: word, r: nat)
    requires Managed(s.cfg, r) && !IsChecksumRegister(s.cfg, r) && BufferIndex(s.cfg, r) < |s.table|
    ensures |StoreChecksum(s, w).table| == |s.table|
    ensures StoreChecksum(s, w).table[BufferIndex(s.cfg, r)] == s.table[BufferIndex(s.cfg, r)]
  {
    hide NotChecksummed;
  }

  /** Once PEI has virtualized CMOS, every register but the checksum and the status
      registers has the value that the build put into its slot. */
  lemma VirtualizedShowsTable(c: Config, i: PeiInput, r: nat)
    requires Steady(PowerOn(c, i)) && ApiLayout(c) && API_BYTE3 + 4 <= |i.cells|
    requires TableSuffices(PowerOn(c, i), i.answers, i.policy) && WillVirtualize(PowerOn(c, i), i.answers, i.policy)
    requires Managed(c, r) && !IsStatusRegister(c, r) && !IsChecksumRegister(c, r)
    ensures BufferIndex(c, r) < |i.table| == |EndOfPei(c, i).table|
    ensures EndOfPei(c, i).table[BufferIndex(c, r)] == i.table[BufferIndex(c, r)]
    ensures Summed(c, r) ==> View(EndOfPei(c, i), r) == i.table[BufferIndex(c, r)]
  {
    hide NewPei, Open, Prepare, BufferOn, Install, Layout, ApiLayout, WillVirtualize, Coherent, IsStatusRegister;
    hide Undisturbed, NotChecksummed, Unmanaged, RecoversInPei, Bad;
    var s := PowerOn(c, i);
    var m := BeforeDecision(c, i);
    NewPeiEffect(c, i.cells, i.table, i.inMemory);
    PowerOnProceeds(c, i);
    VirtualizesIff(s, i.answers, i.policy, i.p);
    TableBeforeDecision(c, i.cells, i.table, i.inMemory, i.answers, i.policy, i.p);
    PeiBootIsCoherent(c, i.cells, i.table, i.inMemory, i.answers, i.policy, i.p, i.installed);
    BufferOnSlot(m, r);
    InstallEffect(BufferOn(m), i.installed);
  }

  // ---- Run time ---------------------------------------------------------------------------------------------

  /** The manager that SMM opens once DXE is up. */
  datatype SmmInput = SmmInput(cfg: Config, table: seq<byte>, answers: Answers, policy: Policy, installed: bool)

  function Joined(dxe: State, x: SmmInput): Pair {
    var smm := Install(Open(NewSmm(x.cfg, dxe.cells, x.table), x.answers, x.policy), x.installed);
    Pair(dxe.(cells := smm.cells), smm)
  }

  /** From arbitrary CMOS contents at power-on, through PEI, memory, hand-off and DXE,
      with clients at work in between and hooks that answer as they like: once DXE is
      up without the buffer and SMM has joined, every interleaving of the two managers
      keeps the shared CMOS coherent for both.  If DXE had to stay in buffer mode, DXE
      stays coherent in the buffer, and SMM in physical CMOS if it found that good. */
  lemma PowerOnToRunTime(c: Config, i: PeiInput, k: Course, x: SmmInput, moves: seq<Move>)
    requires Sound(PowerOn(c, i)) && TableSuffices(PowerOn(c, i), i.answers, i.policy)
    requires i.installed && Proper(c, k)
    requires SameTables(c, x.cfg) && Sound(NewSmm(x.cfg, i.cells, x.table))
    requires forall m :: m in moves ==> Safe(c, m.op)
    ensures HandedOver(c, i, k).hob.Some?
    ensures var dxe := EndOfDxe(c, i, k);
            var p := Joined(dxe, x);
      && (OptimalDefaultsEnabled !in dxe.status ==> BothGood(Play(p, moves)))
      && (OptimalDefaultsEnabled in dxe.status && Proceeds(HandedOver(c, i, k)) && Good(dxe) ==>
            && Good(Play(p, moves).dxe)
            && (BadChecksum !in p.smm.status ==> Good(Play(p, moves).smm)))
  {
    hide Sound, TableSuffices, NewPei, HandedOver, EndOfDxe, Coherent, Safe, Proper, Play, SameTables, Joined;
    hide StoredChecksum, Routed, WillFlush, UsableAfter, WhollyBuffered, Proceeds;
    PowerOnToDxe(c, i, k);
    var dxe := EndOfDxe(c, i, k);
    SameTablesTransitive(c, dxe.cfg, x.cfg);
    NewCellsSound(NewSmm(x.cfg, i.cells, x.table), dxe.cells);
    JoinedConfig(dxe, x);
    forall m | m in moves ensures Safe(dxe.cfg, m.op) { SafeForBoth(c, dxe.cfg, m.op); }
    if OptimalDefaultsEnabled !in dxe.status {
      JoinPhysical(dxe, x);
      InterleavingKeepsCoherence(Joined(dxe, x), moves);
    } else if Proceeds(HandedOver(c, i, k)) && Good(dxe) {
      BufferedEndOfDxe(c, i, k);
      JoinBuffered(dxe, x);
      SplitInterleaving(Joined(dxe, x), moves);
    }
  }

  lemma JoinPhysical(dxe: State, x: SmmInput)
    requires Good(dxe) && OptimalDefaultsEnabled !in dxe.status && SameTables(dxe.cfg, x.cfg)
    requires Sound(NewSmm(x.cfg, dxe.cells, x.table))
    ensures BothGood(Joined(dxe, x))
  {
    hide Good, Sound, SameTables, Open, Install, BothGood;
    SmmJoins(dxe, x.cfg, x.table, x.answers, x.policy, x.installed);
  }

  /** DXE stays in buffer mode only without usable CMOS, so its view is all buffer. */
  lemma BufferedEndOfDxe(c: Config, i: PeiInput, k: Course)
    requires Sound(PowerOn(c, i)) && TableSuffices(PowerOn(c, i), i.answers, i.policy)
    requires i.installed && Proper(c, k)
    requires HandedOver(c, i, k).hob.Some? && Proceeds(HandedOver(c, i, k))
    requires OptimalDefaultsEnabled in EndOfDxe(c, i, k).status
    ensures WhollyBuffered(EndOfDxe(c, i, k))
  {
    hide Sound, TableSuffices, NewPei, HandedOver, Coherent, Proper, SameTables, DxeEntry;
    PowerOnToDxe(c, i, k);
    HandedOverSteady(c, i, k);
    BufferedDxe(FromHob(HandedOver(c, i, k)), k.answers, k.policy, k.installed);
  }

  lemma HandedOverSteady(c: Config, i: PeiInput, k: Course)
    requires Sound(PowerOn(c, i)) && TableSuffices(PowerOn(c, i), i.answers, i.policy)
    requires i.installed && Proper(c, k)
    ensures var h := HandedOver(c, i, k);
      && h.hob.Some? && HobInStep(h) && Good(h) && ErrorLoadingDefaults !in h.status
      && Steady(FromHob(h)) && FromHob(h).status == h.status
  {
    hide Sound, TableSuffices, NewPei, PeiEntry, Run, AfterMemory, Coherent, Safe, Leaves, GoodSpare;
    hide SameTables, Steady;
    var s1 := EndOfPei(c, i);
    PeiEndsGood(c, i.cells, i.table, i.inMemory, i.answers, i.policy, i.p, i.installed);
    var s2 := Run(s1, k.early);
    RunKeepsCoherence(s1, k.early);
    RunLeavesBit(s1, k.early, ErrorLoadingDefaults);
    var s3 := AfterMemory(s2, k.p, k.spare, k.spare');
    AfterMemoryGood(s2, k.p, k.spare, k.spare');
    forall op | op in k.late ensures Safe(s3.cfg, op) { SafeForBoth(c, s3.cfg, op); }
    RunKeepsCoherence(s3, k.late);
    RunLeavesBit(s3, k.late, ErrorLoadingDefaults);
    FromHobFacts(Run(s3, k.late));
  }

  lemma BufferedDxe(s: State, a: Answers, policy: Policy, installed: bool)
    requires Steady(s) && ErrorLoadingDefaults !in s.status && Proceeds(s)
    requires OptimalDefaultsEnabled in DxeEntry(s, a, policy, installed).status
    ensures WhollyBuffered(DxeEntry(s, a, policy, installed))
  {
    hide Open, Conclude, Flush, Layout, Coherent, UsableAfter, SameStore, Routed;
    var o := Open(s, a, policy);
    DxeEntryCoherentIff(s, a, policy, installed);
    OpenForDxe(s, a, policy);
    OpenStatus(s, a, policy, IsUsable);
    ConcludeEffect(o, Proceeds(o), installed);
    var s' := DxeEntry(s, a, policy, installed);
    assert IsUsable in s'.status <==> IsUsable in s'.status * ROUTING;
    assert IsUsable in o.status <==> IsUsable in o.status * ROUTING;
  }

  /** SMM opens its manager beside a buffered DXE: it diagnoses physical CMOS, and DXE
      does not notice. */
  lemma JoinBuffered(dxe: State, x: SmmInput)
    requires Good(dxe) && WhollyBuffered(dxe) && SameTables(dxe.cfg, x.cfg)
    requires Sound(NewSmm(x.cfg, dxe.cells, x.table))
    ensures Split(Joined(dxe, x))
    ensures BadChecksum !in Joined(dxe, x).smm.status ==> Good(Joined(dxe, x).smm)
  {
    hide WellFormed, Layout, Coherent, SameTables, Open, Install, Fits, SameStore;
    var s := NewSmm(x.cfg, dxe.cells, x.table);
    var o := Open(s, x.answers, x.policy);
    var smm := Install(o, x.installed);
    OpenDiagnoses(s, x.answers, x.policy);
    assert ForceNoChecksum in GUARDED && OptimalDefaultsEnabled in GUARDED;
    InstallEffect(o, x.installed);
    InstallLeavesBit(o, x.installed, BadChecksum);
    GuardedSteady(o, smm);
    SoundBySteady(s, smm);
    BufferIgnoresCells(dxe, smm.cells);
  }

  lemma SameTablesTransitive(c: Config, c': Config, c'': Config)
    requires SameTables(c, c') && SameTables(c, c'')
    ensures SameTables(c', c'')
  {
  }

  lemma JoinedConfig(dxe: State, x: SmmInput)
    ensures Joined(dxe, x).dxe.cfg == dxe.cfg
  {
  }
}
