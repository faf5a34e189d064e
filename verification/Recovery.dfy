/** What recovering and flushing do to what was stored before: the interface pointer
    saved in PEI and the registers outside the checksum.  Each is kept exactly under a
    condition on the layout, the routing or the answers. */
module Recovery {
  import opened CmosTypes
  import opened CmosModel
  import opened StatusUpdates
  import opened Loader
  import opened ApiPointer
  import opened Boot
  import opened HandOff

  /** The loader does not skip register `a` for being outside its range. */
  predicate Loadable(c: Config, a: nat) { Managed(c, a) && !Unmanaged(c, a) }

  lemma LoadableHasDefault(s: State, r: nat)
    requires CoversRange(s) && Managed(s.cfg, r)
    ensures 0 < DefaultIndex(s.cfg, r) < |s.table|
  {
    UnmanagedBelowBound(s.cfg, r);
  }

  // ---- The interface pointer in PEI ---------------------------------------------------------------

  lemma ApiIsData(c: Config, a: nat)
    requires ApiLayout(c) && IsApiRegister(a)
    ensures !Housekeeping(c, a)
  {
    hide Excluded;
  }

  /** A load keeps the pointer exactly when every byte that the loader writes already
      is its default. */
  lemma LoadKeepsPointerIff(s: State)
    requires Steady(s) && ErrorLoadingDefaults !in s.status
    requires ApiLayout(s.cfg) && API_BYTE3 + 4 <= |s.cells|
    ensures GetUpTo(Load(s).1, 4) == GetUpTo(s, 4) <==>
      forall a :: IsApiRegister(a) && Loads(BeginLoad(s), a) ==> DefaultFor(s, a) == Cmos(s, a)
  {
    hide Load, Steady, ApiLayout, BeginLoad, Loads, DefaultFor, Cmos, Housekeeping;
    SamePointer(s, Load(s).1);
    forall a | IsApiRegister(a)
      ensures Cmos(Load(s).1, a) == if Loads(BeginLoad(s), a) then DefaultFor(s, a) else Cmos(s, a)
    {
      ApiIsData(s.cfg, a);
      LoadedRegister(s, a);
    }
  }

  lemma BufferOnCells(s: State)
    requires Layout(s.cfg)
    ensures SameCells(s, BufferOn(s))
  {
    hide SetClear, StoreChecksum, Sum, StoredChecksum, IsStatusRegister, Layout;
    if OptimalDefaultsEnabled !in s.status {
      var s1 := SetClear(s, {OptimalDefaultsEnabled}, true);
      SetClearEffect(s, {OptimalDefaultsEnabled}, true);
      SetClearEffect(s1, {BadChecksum}, StoredChecksum(s1) != Sum(s1) % 0x1_0000);
      StoreChecksumCells(Recalculate(s1).(checksum := Sum(s1) % 0x1_0000), Sum(s1) % 0x1_0000);
    }
  }

  /** The PEI decision: only recovery touches the pointer. */
  lemma SettleKeepsPointerIff(s: State)
    requires Steady(s) && ErrorLoadingDefaults !in s.status
    requires ApiLayout(s.cfg) && API_BYTE3 + 4 <= |s.cells|
    ensures GetUpTo(Settle(s), 4) == GetUpTo(s, 4) <==>
      (Bad(s) && RecoversInPei(s) ==>
         forall a :: IsApiRegister(a) && Loads(BeginLoad(s), a) ==> DefaultFor(s, a) == Cmos(s, a))
  {
    hide Load, Layout, ApiLayout, BeginLoad, Loads, DefaultFor, BufferOn, Housekeeping, Bad, RecoversInPei;
    SamePointer(s, Settle(s));
    if Bad(s) && RecoversInPei(s) {
      LoadKeepsPointerIff(s);
      BufferOffEffect(Load(s).1);
      SamePointer(Load(s).1, Flush(s));
    } else if Bad(s) {
      BufferOnCells(s);
      forall a | IsApiRegister(a) ensures Cmos(Settle(s), a) == Cmos(s, a) { ApiIsData(s.cfg, a); }
    }
  }

  /** What a boot through PEI starts from. */
  datatype PeiInput = PeiInput(cells: seq<byte>, table: seq<byte>, inMemory: bool,
                               answers: Answers, policy: Policy, p: pointer, installed: bool)

  function PowerOn(c: Config, i: PeiInput): State { NewPei(c, i.cells, i.table, i.inMemory) }

  function EndOfPei(c: Config, i: PeiInput): State {
    PeiEntry(PowerOn(c, i), i.answers, i.policy, i.p, i.installed)
  }

  /** The manager when PEI decides what to do about a bad checksum or battery. */
  function BeforeDecision(c: Config, i: PeiInput): State {
    Prepare(Open(PowerOn(c, i), i.answers, i.policy), i.p)
  }

  /** The stores fit, and the hooks let PEI save the pointer. */
  ghost predicate SavesPointer(c: Config, i: PeiInput) {
    && Steady(PowerOn(c, i)) && API_BYTE3 + 4 <= |i.cells|
    && TableSuffices(PowerOn(c, i), i.answers, i.policy)
    && LastSaysYes(i.answers.usable) && true in i.answers.bsp
  }

  lemma PowerOnOpens(c: Config, i: PeiInput)
    requires SavesPointer(c, i)
    ensures var o := Open(PowerOn(c, i), i.answers, i.policy);
      && Steady(o) && o.cfg == c && o.table == i.table && |o.cells| == |i.cells|
      && o.status !! GUARDED && Diagnosed(o)
      && {IsUsable, BspIsExecuting} <= o.status
      && (RecoverInPei in o.status <==> i.policy.inPei)
      && (BadBattery in o.status <==> !LastSaysYes(i.answers.batteryGood))
  {
    hide NewPei, Open, Layout, Coherent, SameStore;
    var s := PowerOn(c, i);
    NewPeiEffect(c, i.cells, i.table, i.inMemory);
    assert OptimalDefaultsEnabled in GUARDED;
    OpenDiagnoses(s, i.answers, i.policy);
    OpenCalm(s, i.answers, i.policy);
    OpenStatus(s, i.answers, i.policy, IsUsable);
    OpenStatus(s, i.answers, i.policy, BspIsExecuting);
    OpenStatus(s, i.answers, i.policy, RecoverInPei);
  }

  /** The entry checks never stop a PEI entry that creates its manager. */
  lemma PowerOnProceeds(c: Config, i: PeiInput)
    requires Steady(PowerOn(c, i))
    ensures Proceeds(Open(PowerOn(c, i), i.answers, i.policy))
  {
    hide NewPei, Open, Steady;
    NewPeiEffect(c, i.cells, i.table, i.inMemory);
    OpenKeepsChecks(PowerOn(c, i), i.answers, i.policy);
  }

  /** Where the pointer stands at the end of PEI: it is the saved one exactly unless
      PEI recovers and the loader replaces one of its bytes by another value. */
  lemma PointerAtEndOfPei(c: Config, i: PeiInput)
    requires SavesPointer(c, i) && ApiLayout(c)
    ensures var m := BeforeDecision(c, i);
      && GetUpTo(m, 4) == i.p
      && (GetUpTo(EndOfPei(c, i), 4) == i.p <==>
            (Bad(m) && RecoversInPei(m) ==>
               forall a :: IsApiRegister(a) && Loads(BeginLoad(m), a) ==> DefaultFor(m, a) == Cmos(m, a)))
  {
    hide NewPei, Open, Prepare, Settle, Install, Layout, ApiLayout, Diagnosed, Bad, RecoversInPei;
    hide Loads, BeginLoad, DefaultFor, Cmos, GetUpTo;
    var o := Open(PowerOn(c, i), i.answers, i.policy);
    var m := BeforeDecision(c, i);
    PowerOnOpens(c, i);
    PowerOnProceeds(c, i);
    assert ErrorLoadingDefaults in GUARDED && ForceNoChecksum in GUARDED && OptimalDefaultsEnabled in GUARDED;
    PrepareEffect(o, i.p);
    PrepareSavesPointer(o, i.p);
    SettleKeepsPointerIff(m);
    InstallEffect(Settle(m), i.installed);
    SameCellsSamePointer(Settle(m), EndOfPei(c, i));
  }

  lemma SameCellsSamePointer(s: State, s': State)
    requires s'.cells == s.cells
    ensures GetUpTo(s', 4) == GetUpTo(s, 4)
  {
    hide GetUpTo;
    SamePointer(s, s');
  }

  /** The saved pointer survives PEI, whatever CMOS and the table hold and whatever
      the other hooks and the policy say, exactly when the board keeps the pointer
      registers out of the loader's reach; leaving them out of the checksum is not
      enough. */
  lemma PointerSurvivesPeiIff(c: Config)
    requires Layout(c) && ApiLayout(c)
    ensures (forall i :: SavesPointer(c, i) ==> GetUpTo(EndOfPei(c, i), 4) == i.p)
       <==> (forall a :: IsApiRegister(a) ==> !Loadable(c, a))
  {
    hide SavesPointer, EndOfPei, Layout, ApiLayout, GetUpTo, Loadable, BeforeDecision, Cmos;
    if a :| IsApiRegister(a) && Loadable(c, a) {
      PointerLost(c, a);
    } else {
      forall i | SavesPointer(c, i) ensures GetUpTo(EndOfPei(c, i), 4) == i.p {
        PointerAtEndOfPei(c, i);
        OutOfReach(c, i);
      }
    }
  }

  lemma OutOfReach(c: Config, i: PeiInput)
    requires SavesPointer(c, i) && ApiLayout(c)
    requires forall a :: IsApiRegister(a) ==> !Loadable(c, a)
    ensures forall a :: IsApiRegister(a) ==> !Loads(BeginLoad(BeforeDecision(c, i)), a)
  {
    hide NewPei, Open, Prepare, Layout, ApiLayout, Diagnosed, BeginLoad, Unmanaged, NotChecksummed, Managed;
    PowerOnOpens(c, i);
    assert ErrorLoadingDefaults in GUARDED && ForceNoChecksum in GUARDED && OptimalDefaultsEnabled in GUARDED;
    PrepareEffect(Open(PowerOn(c, i), i.answers, i.policy), i.p);
    BeginLoadEffect(BeforeDecision(c, i));
  }

  /** A boot with a bad battery that recovers in PEI: the table is all zero, the
      pointer is not. */
  const LOSING: PeiInput :=
    PeiInput(seq(256, _ => 0), seq(257, _ => 0), false,
             Answers([true], [], [], [true], []), Policy(false, true), 0xffff_ffff, true)

  lemma LosingDecision(c: Config)
    requires Layout(c) && ApiLayout(c)
    ensures SavesPointer(c, LOSING)
    ensures var m := BeforeDecision(c, LOSING);
      && Steady(m) && CoversRange(m) && m.cfg == c && m.table == LOSING.table
      && Bad(m) && RecoversInPei(m) && !Restricted(m)
      && forall a :: IsApiRegister(a) ==> Cmos(m, a) == 0xff
  {
    hide NewPei, Open, Layout, ApiLayout, Diagnosed, SaveFrom, GetUpTo, Prepare;
    NewPeiEffect(c, LOSING.cells, LOSING.table, false);
    LosingFits(c);
    PowerOnOpens(c, LOSING);
    var s := PowerOn(c, LOSING);
    var o := Open(s, LOSING.answers, LOSING.policy);
    OpenStatus(s, LOSING.answers, LOSING.policy, FirstBootDetected);
    OpenStatus(s, LOSING.answers, LOSING.policy, RecoverOnlyChecksummed);
    LosingSave(o);
  }

  lemma LosingFits(c: Config)
    requires Layout(c)
    ensures SavesPointer(c, LOSING)
  {
    hide ChecksumLayout, StatusLayout, NewPei;
    NewPeiEffect(c, LOSING.cells, LOSING.table, false);
  }

  lemma LosingByte(k: nat)
    requires k < 4
    ensures ApiByte(LOSING.p, k) == 0xff
  {
  }

  lemma LosingSave(o: State)
    requires Steady(o) && ApiLayout(o.cfg) && API_BYTE3 + 4 <= |o.cells|
    requires {IsUsable, BspIsExecuting, RecoverInPei, BadBattery} <= o.status
    requires FirstBootDetected !in o.status && RecoverOnlyChecksummed !in o.status
    ensures var m := Prepare(o, LOSING.p);
      && Steady(m) && m.cfg == o.cfg && m.table == o.table && Bad(m) && RecoversInPei(m) && !Restricted(m)
      && forall a :: IsApiRegister(a) ==> Cmos(m, a) == 0xff
  {
    hide Layout, ApiLayout, SaveFrom, View, Summed, Cmos, ApiByte, BlockSumKept, HobInStep;
    var m := Prepare(o, LOSING.p);
    assert m == SaveFrom(o, LOSING.p, 0);
    SaveFromEffect(o, LOSING.p, 0);
    forall a: nat | IsApiRegister(a) ensures Cmos(m, a) == 0xff { LosingByte(a - API_BYTE3); }
    forall f | f != AddressIsChecksummed ensures f in m.status <==> f in o.status {
      assert f in m.status <==> f in m.status - {AddressIsChecksummed};
      assert f in o.status <==> f in o.status - {AddressIsChecksummed};
    }
    assert BadBattery in m.status * {BadChecksum, BadBattery};
  }

  lemma PointerLost(c: Config, a: nat)
    requires Layout(c) && ApiLayout(c) && IsApiRegister(a) && Loadable(c, a)
    ensures SavesPointer(c, LOSING) && GetUpTo(EndOfPei(c, LOSING), 4) != LOSING.p
  {
    hide SavesPointer, EndOfPei, Layout, ApiLayout, GetUpTo, BeforeDecision, Cmos, BeginLoad, NotChecksummed, Unmanaged;
    hide Bad, RecoversInPei, Restricted;
    var m := BeforeDecision(c, LOSING);
    LosingDecision(c);
    LoadableHasDefault(m, a);
    BeginLoadEffect(m);
    PointerAtEndOfPei(c, LOSING);
    assert Loads(BeginLoad(m), a) && DefaultFor(m, a) == 0;
  }

  // ---- Registers outside the checksum in DXE --------------------------------------------------------

  /** DXE leaves the registers of the no-checksum table alone: it does not flush, or
      the policy asks for it, this is no first boot, and the checksum is bad under the
      routing that the answers and the policy give. */
  predicate Spares(s: State, a: Answers, policy: Policy) {
    || !WillFlush(s, a)
    || (&& Answered(s, a, policy, RecoverOnlyChecksummed) && !Answered(s, a, policy, FirstBootDetected)
        && !Coherent(Routed(s, a, policy)))
  }

  /** The policy to recover only checksummed registers is honoured in DXE exactly when
      `Spares` holds; otherwise the register gets the loader's entry, so it keeps its
      value only if that entry happens to be equal.  The entry is the one handed over,
      except in the slot of a status register.  After a hand-off that DXE finds
      coherent the policy is ignored. */
  lemma DxeSparesIff(s: State, a: Answers, policy: Policy, installed: bool, r: nat)
    requires Steady(s) && ErrorLoadingDefaults !in s.status
    requires Loadable(s.cfg, r) && NotChecksummed(s.cfg, r) && !Housekeeping(s.cfg, r)
    ensures var s' := DxeEntry(s, a, policy, installed);
            var o := Open(s, a, policy);
      && Cmos(s', r) == (if Spares(s, a, policy) then Cmos(s, r) else DefaultFor(o, r))
      && (Cmos(s', r) == Cmos(s, r) <==> Spares(s, a, policy) || DefaultFor(o, r) == Cmos(s, r))
      && (PlainSlot(s.cfg, r) ==> DefaultFor(o, r) == DefaultFor(s, r))
  {
    hide Open, DxeEntry, BeginLoad, DefaultFor, Layout, Coherent, Routed, UsableAfter, Cmos;
    hide NotChecksummed, Unmanaged, Housekeeping, PlainSlot;
    var o := Open(s, a, policy);
    OpenForDxe(s, a, policy);
    DxeEntryCell(s, a, policy, installed, r);
    if PlainSlot(s.cfg, r) { OpenKeepsDefault(s, a, policy, r); }
    if WillFlush(s, a) {
      OpenFindsCoherence(s, a, policy);
      OpenStatus(s, a, policy, RecoverOnlyChecksummed);
      OpenStatus(s, a, policy, FirstBootDetected);
      BeginLoadEffect(o);
      LoadableHasDefault(o, r);
    }
  }
}
