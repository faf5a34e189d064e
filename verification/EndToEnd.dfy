/** How the phases fit together: each ends in a state from which the next starts. */
module EndToEnd {
  import opened CmosTypes
  import opened BitFields
  import opened CmosModel
  import opened Coherence
  import opened TokenLaws
  import opened StatusUpdates
  import opened Loader
  import opened ApiPointer
  import opened Clock
  import opened Runs
  import opened Interleaving
  import opened Boot
  import opened HandOff
  import opened Refinement

  // ---- Bits that no operation sets ---------------------------------------------------------------

  /** The operation is not a request to change status bit `f`. */
  predicate Leaves(op: Op, f: Flag) { op.StatusOp? ==> f !in op.bits }

  /** Bits that the operations themselves maintain. */
  const MAINTAINED: Bitmap := {AddressIsChecksummed, BadChecksum}

  lemma StepLeavesBit(s: State, op: Op, f: Flag)
    requires Good(s) && Leaves(op, f) && f !in MAINTAINED
    ensures f in Step(s, op).status <==> f in s.status
  {
    hide View, Layout, WellFormed, Sum, Replace, BankWrite, SetClear, SaveApi, SetTime, Recalculate;
    hide TokenOf, HasToken, ApiLayout, Overflows, Merge, Encode, FieldMask;
    WellFormedLayout(s.cfg);
    match op {
      case ReadOp(_, _) =>
      case WriteOp(code, v) =>
        WriteLeavesBit(s, code, v, f);
      case SetTimeOp(t) =>
        LayoutParts(s.cfg);
        SetTimeUnnoticed(s, t);
      case StatusOp(bits, on) =>
        BitAfterSetClear(s, bits, on, f);
      case SaveApiOp(p) =>
        assert IsApiRegister(API_BYTE3 + 3);
        BackedExists(s, API_BYTE3 + 3);
        SaveApiKeepsChecksum(s, p);
        assert f in SaveApi(s, p).1.status <==> f in SaveApi(s, p).1.status - {AddressIsChecksummed};
        assert f in s.status <==> f in s.status - {AddressIsChecksummed};
      case RecalculateOp =>
        RecalculateEffect(s);
    }
  }

  lemma WriteLeavesBit(s: State, code: word, v: byte, f: Flag)
    requires f != AddressIsChecksummed
    ensures f in Write(s, code, v).1.status <==> f in s.status
  {
    hide Replace, TokenOf, Overflows, Merge, Encode, FieldMask, Reach, Backed;
    match Decide(s, code, true)
    case Refuse(_) =>
    case Bank(_) =>
    case Field(t) =>
      var c := Reach(s, t.address);
      var after := Merge(Peek(s, c, 0), FieldMask(t), Encode(v, t));
      ReplaceShape(s, t.address, c, after);
      var s' := Replace(s, t.address, c, after);
      assert f in s'.status <==> f in s'.status - {AddressIsChecksummed};
      assert f in s.status <==> f in s.status - {AddressIsChecksummed};
  }

  /** A bit that no operation of a run asks for keeps its value; in particular no
      run ever raises the error-loading-defaults bit by itself. */
  lemma {:induction false} RunLeavesBit(s: State, ops: seq<Op>, f: Flag)
    requires Good(s) && f !in MAINTAINED
    requires forall op :: op in ops ==> Safe(s.cfg, op) && Leaves(op, f)
    ensures f in Run(s, ops).status <==> f in s.status
    decreases |ops|
  {
    hide Good, Step, Safe, Leaves, Coherent;
    if ops != [] {
      StepLeavesBit(s, ops[0], f);
      StepKeepsGood(s, ops[0]);
      RunLeavesBit(Step(s, ops[0]), ops[1..], f);
    }
  }

  // ---- PEI, memory, run, hand-off, DXE -------------------------------------------------------------

  lemma SoundBySteady(s: State, s': State)
    requires Sound(s) && SameShape(s, s') && Steady(s')
    ensures Sound(s')
  {
    hide WellFormed, Layout;
  }

  /** The end of PEI is a state from which every run theorem applies. */
  lemma PeiEndsGood(cfg: Config, cells: seq<byte>, table: seq<byte>, inMemory: bool,
                    a: Answers, policy: Policy, p: pointer, installed: bool)
    requires Sound(NewPei(cfg, cells, table, inMemory))
    requires TableSuffices(NewPei(cfg, cells, table, inMemory), a, policy)
    ensures Good(PeiEntry(NewPei(cfg, cells, table, inMemory), a, policy, p, installed))
    ensures ErrorLoadingDefaults !in PeiEntry(NewPei(cfg, cells, table, inMemory), a, policy, p, installed).status
    ensures PeiEntry(NewPei(cfg, cells, table, inMemory), a, policy, p, installed).cfg == cfg
    ensures |PeiEntry(NewPei(cfg, cells, table, inMemory), a, policy, p, installed).cells| == |cells|
  {
    hide WellFormed, Steady, PeiEntry, NewPei, ApiLayout, Coherent, TableSuffices;
    NewPeiEffect(cfg, cells, table, inMemory);
    WellFormedLayout(cfg);
    assert IsApiRegister(API_BYTE3 + 3);
    BackedExists(NewPei(cfg, cells, table, inMemory), API_BYTE3 + 3);
    PeiBootIsCoherent(cfg, cells, table, inMemory, a, policy, p, installed);
    SoundBySteady(NewPei(cfg, cells, table, inMemory),
                  PeiEntry(NewPei(cfg, cells, table, inMemory), a, policy, p, installed));
  }

  lemma AfterMemoryGood(s: State, p: pointer, spare: nat, spare': nat)
    requires Good(s) && GoodSpare(s.cfg, spare) && GoodSpare(s.cfg, spare')
    ensures var s' := AfterMemory(s, p, spare, spare');
      && Good(s') && s'.hob.Some? && HobInStep(s')
      && SameTables(s.cfg, s'.cfg) && |s'.cells| == |s.cells|
      && (ErrorLoadingDefaults in s'.status <==> ErrorLoadingDefaults in s.status)
  {
    hide Sound, Coherent, SaveApi, SetClear, GoodSpare, Copied;
    var s1 := Step(s, SaveApiOp(p));
    StepKeepsGood(s, SaveApiOp(p));
    StepLeavesBit(s, SaveApiOp(p), ErrorLoadingDefaults);
    var s2 := Step(s1, StatusOp({ExecutingInMemory}, true));
    StepKeepsGood(s1, StatusOp({ExecutingInMemory}, true));
    StepLeavesBit(s1, StatusOp({ExecutingInMemory}, true), ErrorLoadingDefaults);
    assert AfterMemory(s, p, spare, spare') == CreateHob(s2, spare, spare');
    RespareSound(s2, spare, spare');
    HobCreationIsInvisible(s2, spare, spare', 0, 0);
  }

  /** DXE leaves checksum updating enabled. */
  lemma DxeEntryUpdates(s: State, a: Answers, policy: Policy, installed: bool)
    requires Steady(s) && ErrorLoadingDefaults !in s.status && ForceNoChecksum !in s.status
    ensures ForceNoChecksum !in DxeEntry(s, a, policy, installed).status
  {
    hide Open, Conclude, Flush, Load, Layout, Coherent, UsableAfter, SameStore;
    var o := Open(s, a, policy);
    OpenDiagnoses(s, a, policy);
    OpenForDxe(s, a, policy);
    assert ForceNoChecksum in GUARDED;
    if Flushes(o) {
      FlushShape(o);
      LoadStatus(o);
    }
    ConcludeEffect(if Flushes(o) then Flush(o) else o, Proceeds(o), installed);
  }

  /** Whatever clients do safely in PEI once the hand-off block exists, and whatever
      the hooks answer, DXE ends with the invariant exactly when it flushes or finds
      the stored checksum where PEI kept it; without the buffer it always does. */
  lemma BootEndsGood(s: State, ops: seq<Op>, a: Answers, policy: Policy, installed: bool)
    requires Good(s) && s.hob.Some? && HobInStep(s)
    requires ErrorLoadingDefaults !in s.status
    requires forall op :: op in ops ==> Safe(s.cfg, op) && Leaves(op, ErrorLoadingDefaults)
    ensures Run(s, ops).hob.Some?
    ensures var d := FromHob(Run(s, ops));
            var s' := DxeEntry(d, a, policy, installed);
      && s'.cfg == s.cfg && |s'.cells| == |s.cells|
      && (Good(s') <==> WillFlush(d, a) || StoredChecksum(Routed(d, a, policy)) == StoredChecksum(d))
      && (OptimalDefaultsEnabled in s'.status <==> OptimalDefaultsEnabled in d.status && !WillFlush(d, a))
      && (OptimalDefaultsEnabled !in s'.status ==> Good(s'))
  {
    hide Run, DxeEntry, Coherent, Safe, Leaves, WellFormed, Steady, Routed, StoredChecksum, UsableAfter, Sum;
    var e := Run(s, ops);
    RunKeepsCoherence(s, ops);
    RunLeavesBit(s, ops, ErrorLoadingDefaults);
    var d := FromHob(e);
    FromHobFacts(e);
    RoutedSum(d, a, policy);
    DxeKeepsCoherence(d, a, policy, installed);
    DxeEntryCoherentIff(d, a, policy, installed);
    DxeEntryFits(d, a, policy, installed);
    DxeEntryUpdates(d, a, policy, installed);
    FromHobIsSound(e);
    SoundBySteady(d, DxeEntry(d, a, policy, installed));
  }

  lemma FromHobIsSound(s: State)
    requires Sound(s) && s.hob.Some? && HobInStep(s)
    ensures Sound(FromHob(s))
  {
    hide WellFormed, Layout;
  }

  lemma FromHobFacts(s: State)
    requires Good(s) && s.hob.Some? && HobInStep(s)
    ensures Steady(FromHob(s)) && Coherent(FromHob(s)) && FromHob(s).status == s.status
  {
    hide WellFormed, Layout, Coherent;
    assert Alike(s, FromHob(s));
    AlikeCoherence(s, FromHob(s));
  }

  // ---- SMM joins -----------------------------------------------------------------------------------------

  lemma PhysicalView(s: State, r: nat)
    requires OptimalDefaultsEnabled !in s.status
    ensures View(s, r) == Cmos(s, r)
  {
  }

  /** With the buffer off, changes confined to status registers keep coherence
      whatever happens to the other routing bits. */
  lemma PhysicalSameStore(s: State, s': State)
    requires Steady(s) && SameStore(s, s')
    requires OptimalDefaultsEnabled !in s.status && OptimalDefaultsEnabled !in s'.status
    ensures Coherent(s') <==> Coherent(s)
  {
    hide View, NotChecksummed, Unmanaged, IsStatusRegister, StatusLayout;
    forall r: nat | Summed(s.cfg, r) || IsChecksumRegister(s.cfg, r) ensures View(s', r) == View(s, r) {
      ProtectedIsNotStatus(s.cfg, r);
      PhysicalView(s, r);
      PhysicalView(s', r);
    }
    SumFrame(s, s', s.cfg.last + 1);
  }

  /** The SMM manager as its initialization leaves it. */
  function NewSmm(cfg: Config, cells: seq<byte>, table: seq<byte>): State {
    State(cfg, {ValidInterface}, cells, table, None, 0, true)
  }

  /** When SMM opens its own manager on the CMOS that DXE left coherent, it finds the
      checksum good, and the pair satisfies the invariant of all interleavings. */
  lemma SmmJoins(dxe: State, cfg: Config, table: seq<byte>, a: Answers, policy: Policy, installed: bool)
    requires Good(dxe) && OptimalDefaultsEnabled !in dxe.status && SameTables(dxe.cfg, cfg)
    requires Sound(NewSmm(cfg, dxe.cells, table))
    ensures var o := Open(NewSmm(cfg, dxe.cells, table), a, policy);
            var smm := Install(o, installed);
      && BadChecksum !in o.status
      && BothGood(Pair(dxe.(cells := smm.cells), smm))
  {
    hide Open, Install, WellFormed, Layout, Coherent, SameTables, Fits, IsStatusRegister;
    var s := NewSmm(cfg, dxe.cells, table);
    var o := Open(s, a, policy);
    var smm := Install(o, installed);
    OpenDiagnoses(s, a, policy);
    OpenCalm(s, a, policy);
    assert ForceNoChecksum in GUARDED && OptimalDefaultsEnabled in GUARDED;
    SharedCoherence(dxe, s);
    PhysicalSameStore(s, o);
    InstallEffect(o, installed);
    GuardedSteady(o, smm);
    SoundBySteady(s, smm);
    StatusRegistersAgree(dxe.cfg, cfg);
    var dxe' := dxe.(cells := smm.cells);
    NewCellsSound(dxe, smm.cells);
    PhysicalSameStore(dxe, dxe');
  }

  lemma SharedCoherence(dxe: State, s: State)
    requires Coherent(dxe) && SameTables(dxe.cfg, s.cfg) && s.cells == dxe.cells
    requires OptimalDefaultsEnabled !in dxe.status && OptimalDefaultsEnabled !in s.status
    ensures Coherent(s)
  {
    hide View, SameTables, Coherent;
    forall r: nat ensures View(s, r) == View(dxe, r) {
      PhysicalView(s, r);
      PhysicalView(dxe, r);
    }
    SameViewSameCoherence(dxe, s);
  }

  lemma StatusRegistersAgree(c: Config, c': Config)
    requires SameTables(c, c')
    ensures forall a: nat :: IsStatusRegister(c', a) <==> IsStatusRegister(c, a)
  {
  }
}
