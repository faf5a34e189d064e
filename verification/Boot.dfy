/** The boot phases: PEI decides between running clean, loading, recovering and
    virtualizing; the hand-off block carries the state to DXE, which flushes the
    buffer.  Board hooks are lists of arbitrary answers. */
module Boot {
  import opened CmosTypes
  import opened CmosModel
  import opened Coherence
  import opened StatusUpdates
  import opened Loader
  import opened ApiPointer

  datatype Answers = Answers(
    usable: seq<bool>, firstBoot: seq<bool>, coldBoot: seq<bool>, bsp: seq<bool>, batteryGood: seq<bool>)

  /** CMOS_MGR_RECOVER_ONLY_CHECKUMMED and CMOS_MGR_RECOVER_IN_PEI. */
  datatype Policy = Policy(onlyChecksummed: bool, inPei: bool)

  // ---- Creating a manager ------------------------------------------------------------------

  /** Each hook sets or clears the usable bit, so the last one decides. */
  function AskUsable(s: State, answers: seq<bool>): State
    decreases |answers|
  {
    if answers == [] then s else AskUsable(SetClear(s, {IsUsable}, answers[0]), answers[1..])
  }

  /** Each hook may raise the bit and none lowers it. */
  function Ask(s: State, answers: seq<bool>, f: Flag): State
    decreases |answers|
  {
    if answers == [] then s
    else Ask(if answers[0] then SetClear(s, {f}, true) else s, answers[1..], f)
  }

  function Probe(s: State, a: Answers, policy: Policy): State {
    var s1 := AskUsable(s, a.usable);
    var s2 := Ask(s1, a.firstBoot, FirstBootDetected);
    var s3 := Ask(s2, a.coldBoot, ColdBootDetected);
    var s4 := Ask(s3, a.bsp, BspIsExecuting);
    var s5 := if policy.onlyChecksummed then SetClear(s4, {RecoverOnlyChecksummed}, true) else s4;
    if policy.inPei then SetClear(s5, {RecoverInPei}, true) else s5
  }

  predicate LastSaysYes(answers: seq<bool>) { answers != [] && answers[|answers| - 1] }

  /** The common tail of NewCmosManagerInterface. */
  function Open(s: State, a: Answers, policy: Policy): State {
    var s1 := Probe(s, a, policy);
    SetClear(Recalculate(s1).(checksum := Sum(s1) % 0x1_0000), {BadBattery}, !LastSaysYes(a.batteryGood))
  }

  /** A PEI manager before its hooks are asked. */
  function NewPei(cfg: Config, cells: seq<byte>, table: seq<byte>, inMemory: bool): State {
    SetClear(State(cfg, {ValidInterface}, cells, table, None, 0, false), {ExecutingInMemory}, inMemory)
  }

  // ---- PEI ---------------------------------------------------------------------------------------

  /** Load on the first cold boot, then save the interface pointer. */
  function Prepare(s: State, p: pointer): State {
    if {IsUsable, BspIsExecuting} <= s.status then
      SaveApi(if {FirstBootDetected, ColdBootDetected} <= s.status then Load(s).1 else s, p).1
    else s
  }

  predicate Bad(s: State) { s.status * {BadChecksum, BadBattery} != {} }

  predicate RecoversInPei(s: State) { {IsUsable, RecoverInPei} <= s.status }

  function Settle(s: State): State {
    if !Bad(s) then s
    else if RecoversInPei(s) then Flush(s)
    else BufferOn(s)
  }

  function Install(s: State, installed: bool): State {
    if installed then SetClear(s, {ValidManager}, true)
    else SetClear(SetClear(s, {InstallFailed}, true), {ValidManager}, false)
  }

  /** CmosManagerPeiEntry, when no manager is installed yet. */
  function PeiEntry(s: State, a: Answers, policy: Policy, p: pointer, installed: bool): State {
    var o := Open(s, a, policy);
    if Proceeds(o) then Install(Settle(Prepare(o, p)), installed) else o
  }

  /** A later entry, which finds the manager: it marks the manager and leaves. */
  function EnterAgain(s: State): (EfiStatus, State) {
    var s' := SetClear(s, {InterfaceAlreadyInstalled}, true);
    (if ValidInterface in s'.status then Success else Unsupported, s')
  }

  // ---- Bits that a phase leaves alone --------------------------------------------------------------

  const GUARDED: Bitmap := {ForceNoChecksum, ErrorLoadingDefaults, OptimalDefaultsEnabled}

  /** The store keeps its shape and the guarded bits their values. */
  ghost predicate Guarded(s: State, s': State) {
    SameShape(s, s') && forall f :: f in GUARDED ==> (f in s'.status <==> f in s.status)
  }

  /** Besides, only status and diagnostic registers may have changed, and without the
      buffer nothing in the default table. */
  ghost predicate Calm(s: State, s': State) {
    && Guarded(s, s') && SameStore(s, s')
    && (OptimalDefaultsEnabled !in s.status ==> s'.table == s.table)
  }

  lemma SetClearCalm(s: State, bits: Bitmap, on: bool)
    requires Layout(s.cfg) && bits !! GUARDED
    ensures Calm(s, SetClear(s, bits, on))
  {
    hide SetClear, Layout;
    SetClearEffect(s, bits, on);
    assert OptimalDefaultsEnabled in GUARDED;
    if OptimalDefaultsEnabled !in s.status { SetClearKeepsTable(s, bits, on); }
    forall f | f in GUARDED ensures f in SetClear(s, bits, on).status <==> f in s.status {
      BitAfterSetClear(s, bits, on, f);
    }
  }

  lemma GuardedSteady(s: State, s': State)
    requires Steady(s) && Guarded(s, s')
    ensures Steady(s')
  {
    hide Layout;
    assert OptimalDefaultsEnabled in GUARDED;
  }

  lemma {:induction false} AskUsableCalm(s: State, answers: seq<bool>)
    requires Layout(s.cfg)
    ensures Calm(s, AskUsable(s, answers))
    decreases |answers|
  {
    hide SetClear, Layout;
    if answers != [] {
      SetClearCalm(s, {IsUsable}, answers[0]);
      AskUsableCalm(SetClear(s, {IsUsable}, answers[0]), answers[1..]);
    }
  }

  lemma {:induction false} AskCalm(s: State, answers: seq<bool>, f: Flag)
    requires Layout(s.cfg) && f !in GUARDED
    ensures Calm(s, Ask(s, answers, f))
    decreases |answers|
  {
    hide SetClear, Layout;
    if answers != [] {
      if answers[0] { SetClearCalm(s, {f}, true); }
      AskCalm(if answers[0] then SetClear(s, {f}, true) else s, answers[1..], f);
    }
  }

  /** A raised bit tells whether some hook answered yes. */
  lemma {:induction false} AskRaises(s: State, answers: seq<bool>, f: Flag)
    requires Layout(s.cfg) && f != AddressIsChecksummed
    ensures f in Ask(s, answers, f).status <==> f in s.status || true in answers
    decreases |answers|
  {
    hide SetClear, Layout;
    if answers != [] {
      assert answers == [answers[0]] + answers[1..];
      BitAfterSetClear(s, {f}, true, f);
      AskRaises(if answers[0] then SetClear(s, {f}, true) else s, answers[1..], f);
    }
  }

  lemma CalmTransitive(s: State, s': State, s'': State)
    requires Calm(s, s') && Calm(s', s'')
    ensures Calm(s, s'')
  {
    hide IsStatusRegister;
    assert OptimalDefaultsEnabled in GUARDED;
  }

  lemma CalmConfig(s: State, s': State)
    requires Calm(s, s')
    ensures s'.cfg == s.cfg
  {
  }

  lemma ProbeCalm(s: State, a: Answers, policy: Policy)
    requires Layout(s.cfg)
    ensures Calm(s, Probe(s, a, policy))
  {
    hide SetClear, Layout, AskUsable, Ask, Calm;
    var s1 := AskUsable(s, a.usable);
    var s2 := Ask(s1, a.firstBoot, FirstBootDetected);
    var s3 := Ask(s2, a.coldBoot, ColdBootDetected);
    var s4 := Ask(s3, a.bsp, BspIsExecuting);
    var s5 := if policy.onlyChecksummed then SetClear(s4, {RecoverOnlyChecksummed}, true) else s4;
    AskUsableCalm(s, a.usable); CalmConfig(s, s1);
    AskCalm(s1, a.firstBoot, FirstBootDetected); CalmTransitive(s, s1, s2); CalmConfig(s, s2);
    AskCalm(s2, a.coldBoot, ColdBootDetected); CalmTransitive(s, s2, s3); CalmConfig(s, s3);
    AskCalm(s3, a.bsp, BspIsExecuting); CalmTransitive(s, s3, s4); CalmConfig(s, s4);
    if policy.onlyChecksummed {
      SetClearCalm(s4, {RecoverOnlyChecksummed}, true);
      CalmTransitive(s, s4, s5);
      CalmConfig(s, s5);
    }
    if policy.inPei {
      SetClearCalm(s5, {RecoverInPei}, true);
      CalmTransitive(s, s5, SetClear(s5, {RecoverInPei}, true));
    }
  }

  /** Opening a manager diagnoses the checksum: the bad-checksum bit tells exactly
      whether the view is incoherent. */
  lemma OpenDiagnoses(s: State, a: Answers, policy: Policy)
    requires Steady(s)
    ensures var s' := Open(s, a, policy);
      && Guarded(s, s') && Steady(s') && Diagnosed(s')
      && (BadBattery in s'.status <==> !LastSaysYes(a.batteryGood))
  {
    hide SetClear, Layout, Probe, Recalculate, Sum, View, Fits, LastSaysYes;
    var s1 := Probe(s, a, policy);
    ProbeCalm(s, a, policy);
    GuardedSteady(s, s1);
    RecalculateEffect(s1);
    var s2 := Recalculate(s1).(checksum := Sum(s1) % 0x1_0000);
    var bad := !LastSaysYes(a.batteryGood);
    var s3 := SetClear(s2, {BadBattery}, bad);
    SameFit(s1, s2);
    SetClearCalm(s2, {BadBattery}, bad);
    GuardedSteady(s2, s3);
    SetClearEffect(s2, {BadBattery}, bad);
    BitAfterSetClear(s2, {BadBattery}, bad, BadChecksum);
    BitAfterSetClear(s2, {BadBattery}, bad, BadBattery);
    assert SameRouting(s2, Assign(s2, {BadBattery}, bad));
    SameStoreUndisturbed(s2, s3);
    UndisturbedKeepsChecksum(s2, s3);
    ChecksumFieldIrrelevant(Recalculate(s1), Sum(s1) % 0x1_0000);
  }

  /** Noting the battery's state disturbs nothing. */
  lemma BatteryNoted(s: State, bad: bool)
    requires Steady(s)
    ensures var s' := SetClear(s, {BadBattery}, bad);
      Sum(s') == Sum(s) && s'.checksum == s.checksum
  {
    hide SetClear, Layout, Sum, View;
    SetClearEffect(s, {BadBattery}, bad);
    assert SameRouting(s, Assign(s, {BadBattery}, bad));
    SameStoreUndisturbed(s, SetClear(s, {BadBattery}, bad));
    UndisturbedKeepsChecksum(s, SetClear(s, {BadBattery}, bad));
  }

  /** The manager's own copy of the checksum is the true sum once it is open. */
  lemma OpenKnowsTheSum(s: State, a: Answers, policy: Policy)
    requires Steady(s)
    ensures Open(s, a, policy).checksum == Sum(Open(s, a, policy))
  {
    hide SetClear, Layout, Probe, Recalculate, Sum, View, Fits, LastSaysYes, Coherent, SameStore;
    var s1 := Probe(s, a, policy);
    ProbeCalm(s, a, policy);
    GuardedSteady(s, s1);
    LayoutParts(s.cfg);
    SumFits(s1);
    RecalculateEffect(s1);
    var w: word := Sum(s1) % 0x1_0000;
    ChecksumFieldIrrelevant(Recalculate(s1), w);
    var s2 := Recalculate(s1).(checksum := w);
    SameFit(s1, s2);
    BatteryNoted(s2, !LastSaysYes(a.batteryGood));
  }

  lemma SameFit(s: State, s': State)
    requires Steady(s) && SameShape(s, s')
    requires OptimalDefaultsEnabled in s'.status <==> OptimalDefaultsEnabled in s.status
    ensures Steady(s')
  {
    hide Layout;
  }

  lemma ChecksumFieldIrrelevant(s: State, w: word)
    ensures Undisturbed(s, s.(checksum := w)) && Sum(s.(checksum := w)) == Sum(s)
    ensures Coherent(s.(checksum := w)) <==> Coherent(s)
  {
    UndisturbedKeepsChecksum(s, s.(checksum := w));
  }

  // ---- The status word after opening ----------------------------------------------------------------

  lemma {:induction false} AskUsableStatus(s: State, answers: seq<bool>, f: Flag)
    requires Layout(s.cfg) && f != AddressIsChecksummed
    ensures f in AskUsable(s, answers).status <==>
      if f == IsUsable && answers != [] then answers[|answers| - 1] else f in s.status
    decreases |answers|
  {
    hide SetClear, Layout;
    if answers != [] {
      BitAfterSetClear(s, {IsUsable}, answers[0], f);
      AskUsableStatus(SetClear(s, {IsUsable}, answers[0]), answers[1..], f);
    }
  }

  lemma {:induction false} AskStatus(s: State, answers: seq<bool>, g: Flag, f: Flag)
    requires Layout(s.cfg) && f != AddressIsChecksummed && f != g
    ensures f in Ask(s, answers, g).status <==> f in s.status
    decreases |answers|
  {
    hide SetClear, Layout;
    if answers != [] {
      BitAfterSetClear(s, {g}, true, f);
      AskStatus(if answers[0] then SetClear(s, {g}, true) else s, answers[1..], g, f);
    }
  }

  /** CMOS counts as usable once the hooks have answered. */
  predicate UsableAfter(s: State, a: Answers) {
    if a.usable == [] then IsUsable in s.status else a.usable[|a.usable| - 1]
  }

  /** What the answers and the policy make of a status bit. */
  predicate Answered(s: State, a: Answers, policy: Policy, f: Flag) {
    match f
    case IsUsable => UsableAfter(s, a)
    case FirstBootDetected => f in s.status || true in a.firstBoot
    case ColdBootDetected => f in s.status || true in a.coldBoot
    case BspIsExecuting => f in s.status || true in a.bsp
    case RecoverOnlyChecksummed => f in s.status || policy.onlyChecksummed
    case RecoverInPei => f in s.status || policy.inPei
    case BadBattery => !LastSaysYes(a.batteryGood)
    case _ => f in s.status
  }

  lemma ProbeStatus(s: State, a: Answers, policy: Policy, f: Flag)
    requires Layout(s.cfg) && f != AddressIsChecksummed && f != BadBattery
    ensures f in Probe(s, a, policy).status <==> Answered(s, a, policy, f)
  {
    hide SetClear, Layout, AskUsable, Ask;
    var s1 := AskUsable(s, a.usable);
    var s2 := Ask(s1, a.firstBoot, FirstBootDetected);
    var s3 := Ask(s2, a.coldBoot, ColdBootDetected);
    var s4 := Ask(s3, a.bsp, BspIsExecuting);
    var s5 := if policy.onlyChecksummed then SetClear(s4, {RecoverOnlyChecksummed}, true) else s4;
    AskUsableCalm(s, a.usable);
    AskCalm(s1, a.firstBoot, FirstBootDetected);
    AskCalm(s2, a.coldBoot, ColdBootDetected);
    AskCalm(s3, a.bsp, BspIsExecuting);
    hide SameStore;
    AskUsableStatus(s, a.usable, f);
    AskBit(s1, a.firstBoot, FirstBootDetected, f);
    AskBit(s2, a.coldBoot, ColdBootDetected, f);
    AskBit(s3, a.bsp, BspIsExecuting, f);
    BitAfterSetClear(s4, {RecoverOnlyChecksummed}, true, f);
    BitAfterSetClear(s5, {RecoverInPei}, true, f);
  }

  lemma AskBit(s: State, answers: seq<bool>, g: Flag, f: Flag)
    requires Layout(s.cfg) && f != AddressIsChecksummed
    ensures f in Ask(s, answers, g).status <==> f in s.status || (f == g && true in answers)
  {
    hide Ask, Layout;
    if f == g { AskRaises(s, answers, f); } else { AskStatus(s, answers, g, f); }
  }

  /** Every status bit of an open manager, except the diagnosis of the checksum, is
      given by the answers and the policy. */
  lemma OpenStatus(s: State, a: Answers, policy: Policy, f: Flag)
    requires Steady(s) && f != AddressIsChecksummed && f != BadChecksum
    ensures f in Open(s, a, policy).status <==> Answered(s, a, policy, f)
  {
    hide SetClear, Layout, Probe, Recalculate, Sum, View, Fits, LastSaysYes, UsableAfter;
    var s1 := Probe(s, a, policy);
    ProbeCalm(s, a, policy);
    GuardedSteady(s, s1);
    RecalculateEffect(s1);
    if f != BadBattery { ProbeStatus(s, a, policy, f); }
    BitAfterSetClear(Recalculate(s1).(checksum := Sum(s1) % 0x1_0000), {BadBattery},
                   !LastSaysYes(a.batteryGood), f);
  }

  /** Opening a manager leaves the entry checks as they are; those of a manager that
      was just created pass. */
  lemma OpenKeepsChecks(s: State, a: Answers, policy: Policy)
    requires Steady(s)
    ensures Proceeds(Open(s, a, policy)) <==> Proceeds(s)
  {
    hide Open, Steady;
    OpenStatus(s, a, policy, ValidInterface);
    OpenStatus(s, a, policy, InterfaceAlreadyInstalled);
  }

  /** The state with the routing bits that the answers and the policy give. */
  function Routed(s: State, a: Answers, policy: Policy): State {
    var usable := if UsableAfter(s, a) then s.status + {IsUsable} else s.status - {IsUsable};
    s.(status := usable + if policy.onlyChecksummed then {RecoverOnlyChecksummed} else {})
  }

  lemma ProbeFindsCoherence(s: State, a: Answers, policy: Policy)
    requires Steady(s)
    ensures var s1 := Probe(s, a, policy);
      && Steady(s1)
      && (Coherent(s1) <==> Coherent(Routed(s, a, policy)))
      && (StoredChecksum(s1) != Sum(s1) % 0x1_0000 <==> !Coherent(s1))
  {
    hide Layout, Probe, Sum, View, SetClear, UsableAfter, StoredChecksum, IsStatusRegister;
    var s1 := Probe(s, a, policy);
    ProbeCalm(s, a, policy);
    GuardedSteady(s, s1);
    LayoutParts(s.cfg);
    SumFits(s1);
    ProbeSameAsRouted(s, a, policy);
    UndisturbedKeepsChecksum(Routed(s, a, policy), s1);
  }

  lemma ProbeSameAsRouted(s: State, a: Answers, policy: Policy)
    requires Steady(s)
    ensures Undisturbed(Routed(s, a, policy), Probe(s, a, policy))
  {
    hide Layout, Probe, View, SetClear, UsableAfter, IsStatusRegister, Summed;
    var s1 := Probe(s, a, policy);
    ProbeCalm(s, a, policy);
    forall f | f in ROUTING ensures f in s1.status <==> f in Routed(s, a, policy).status {
      ProbeStatus(s, a, policy, f);
    }
    SameStoreUndisturbed(Routed(s, a, policy), s1);
  }

  /** The checksum is found bad exactly when the state handed in is incoherent
      under that routing. */
  lemma OpenFindsCoherence(s: State, a: Answers, policy: Policy)
    requires Steady(s)
    ensures BadChecksum in Open(s, a, policy).status <==> !Coherent(Routed(s, a, policy))
  {
    hide Layout, Probe, Recalculate, Sum, View, SetClear, Routed, Coherent;
    var s1 := Probe(s, a, policy);
    ProbeFindsCoherence(s, a, policy);
    ProbeCalm(s, a, policy);
    RecalculateEffect(s1);
    var s2 := Recalculate(s1).(checksum := Sum(s1) % 0x1_0000);
    BitAfterSetClear(s2, {BadBattery}, !LastSaysYes(a.batteryGood), BadChecksum);
  }

  lemma OpenCalm(s: State, a: Answers, policy: Policy)
    requires Layout(s.cfg)
    ensures Calm(s, Open(s, a, policy))
  {
    hide Layout, Probe, Sum, View, SetClear, IsStatusRegister, LastSaysYes, StoredChecksum;
    var s1 := Probe(s, a, policy);
    ProbeCalm(s, a, policy);
    SetClearCalm(s1, {BadChecksum}, StoredChecksum(s1) != Sum(s1) % 0x1_0000);
    var s2 := Recalculate(s1).(checksum := Sum(s1) % 0x1_0000);
    SetClearCalm(s2, {BadBattery}, !LastSaysYes(a.batteryGood));
  }

  // ---- PEI establishes the invariant ---------------------------------------------------------------

  /** Turning the buffer on makes its view coherent, whatever the table holds. */
  lemma BufferOnIsCoherent(s: State)
    requires Steady(s) && CoversRange(s) && OptimalDefaultsEnabled !in s.status
    ensures var s' := BufferOn(s);
      && Coherent(s') && SameShape(s, s') && Steady(s')
      && OptimalDefaultsEnabled in s'.status && ForceNoChecksum !in s'.status
      && (ErrorLoadingDefaults in s'.status <==> ErrorLoadingDefaults in s.status)
  {
    hide SetClear, Layout, Recalculate, StoreChecksum, Sum, View;
    var s1 := SetClear(s, {OptimalDefaultsEnabled}, true);
    var w: word := Sum(s1) % 0x1_0000;
    var s2 := Recalculate(s1).(checksum := w);
    PlainSetClear(s, {OptimalDefaultsEnabled}, true);
    RecalculateEffect(s1);
    ChecksumFieldIrrelevant(Recalculate(s1), w);
    UndisturbedKeepsChecksum(Recalculate(s1), s2);
    SameFit(s1, s2);
    StoringTheSumIsCoherent(s2);
    LayoutParts(s.cfg);
    StoreChecksumEffect(s2, w);
    SteadinessKept(s2, StoreChecksum(s2, w));
  }

  ghost predicate Diagnosed(s: State) { BadChecksum in s.status <==> !Coherent(s) }

  lemma FirstBootLoad(s: State)
    requires Steady(s) && ErrorLoadingDefaults !in s.status && ForceNoChecksum !in s.status
    requires OptimalDefaultsEnabled !in s.status
    ensures Guarded(s, Load(s).1) && Steady(Load(s).1) && Diagnosed(Load(s).1)
  {
    hide Layout, Load, Sum, View;
    LoadStatus(s);
    LoadIsCoherent(s);
    LoadSucceeds(s);
    assert OptimalDefaultsEnabled in Load(s).1.status <==> OptimalDefaultsEnabled in Load(s).1.status * ROUTING;
    assert OptimalDefaultsEnabled in s.status <==> OptimalDefaultsEnabled in s.status * ROUTING;
  }

  lemma PointerSave(s: State, p: pointer)
    requires Steady(s) && ApiLayout(s.cfg) && API_BYTE3 + 4 <= |s.cells| && Diagnosed(s)
    ensures var s' := SaveApi(s, p).1;
      Guarded(s, s') && Steady(s') && Diagnosed(s')
  {
    hide SaveApi, Layout, Sum, View, ApiLayout;
    SaveApiKeepsChecksum(s, p);
    var s' := SaveApi(s, p).1;
    forall f | f != AddressIsChecksummed ensures f in s'.status <==> f in s.status {
      assert f in s'.status <==> f in s'.status - {AddressIsChecksummed};
      assert f in s.status <==> f in s.status - {AddressIsChecksummed};
    }
    GuardedSteady(s, s');
  }

  lemma PrepareEffect(s: State, p: pointer)
    requires Steady(s) && ApiLayout(s.cfg) && API_BYTE3 + 4 <= |s.cells|
    requires OptimalDefaultsEnabled !in s.status && ErrorLoadingDefaults !in s.status
    requires ForceNoChecksum !in s.status && Diagnosed(s)
    ensures var s' := Prepare(s, p);
      Guarded(s, s') && Steady(s') && Diagnosed(s')
  {
    hide SaveApi, Layout, Load, Diagnosed, ApiLayout;
    if {IsUsable, BspIsExecuting} <= s.status {
      if {FirstBootDetected, ColdBootDetected} <= s.status {
        FirstBootLoad(s);
        PointerSave(Load(s).1, p);
      } else {
        PointerSave(s, p);
      }
    }
  }

  /** After preparation the interface pointer is in CMOS, and on the first cold boot
      the defaults are loaded. */
  lemma PrepareSavesPointer(s: State, p: pointer)
    requires Steady(s) && ApiLayout(s.cfg) && API_BYTE3 + 4 <= |s.cells|
    requires ErrorLoadingDefaults !in s.status && {IsUsable, BspIsExecuting} <= s.status
    ensures GetUpTo(Prepare(s, p), 4) == p
    ensures {FirstBootDetected, ColdBootDetected} <= s.status ==> DefaultsLoaded in Prepare(s, p).status
  {
    hide SaveApi, Layout, Load, ApiLayout, GetUpTo;
    var s1 := if {FirstBootDetected, ColdBootDetected} <= s.status then Load(s).1 else s;
    if {FirstBootDetected, ColdBootDetected} <= s.status {
      LoadStatus(s);
      assert IsUsable in s.status * ROUTING;
      assert IsUsable in s1.status * ROUTING;
    }
    ApiRoundTrip(s1, p);
    SaveApiKeepsChecksum(s1, p);
    assert DefaultsLoaded in SaveApi(s1, p).1.status - {AddressIsChecksummed}
      <==> DefaultsLoaded in s1.status - {AddressIsChecksummed};
  }

  /** Until PEI decides, nothing has written the default table. */
  lemma PrepareKeepsTable(s: State, p: pointer)
    requires Steady(s) && ApiLayout(s.cfg) && API_BYTE3 + 4 <= |s.cells|
    requires OptimalDefaultsEnabled !in s.status && ErrorLoadingDefaults !in s.status
    ensures Prepare(s, p).table == s.table
    ensures ExecutingInMemory in Prepare(s, p).status <==> ExecutingInMemory in s.status
  {
    hide SaveApi, Layout, Load, ApiLayout, Undisturbed, Cmos, Coherent, FinishLoad, AfterLoop, EndLoad, SameStore;
    if {IsUsable, BspIsExecuting} <= s.status {
      var s1 := if {FirstBootDetected, ColdBootDetected} <= s.status then Load(s).1 else s;
      if {FirstBootDetected, ColdBootDetected} <= s.status {
        LoadKeepsTable(s);
        LoadLeavesBit(s, ExecutingInMemory);
        LoadStatus(s);
      }
      SaveApiKeepsChecksum(s1, p);
      var s2 := SaveApi(s1, p).1;
      assert ExecutingInMemory in s2.status <==> ExecutingInMemory in s2.status - {AddressIsChecksummed};
      assert ExecutingInMemory in s1.status <==> ExecutingInMemory in s1.status - {AddressIsChecksummed};
    }
  }

  lemma FlushKeepsTable(s: State)
    requires Steady(s) && OptimalDefaultsEnabled !in s.status && ErrorLoadingDefaults !in s.status
    ensures Flush(s).table == s.table
  {
    hide Load, Layout;
    LoadKeepsTable(s);
    BufferOffEffect(Load(s).1);
  }

  /** PEI turns the buffer on. */
  predicate Virtualizes(s: State) { Bad(s) && !RecoversInPei(s) }

  /** Every outcome of the PEI decision is coherent: clean because the diagnosis
      was good, recovered because loading ends coherent, virtualized because the
      checksum of the buffer has just been stored.  Only virtualizing needs a table
      that covers the range. */
  lemma SettleIsCoherent(s: State)
    requires Steady(s) && (Virtualizes(s) ==> CoversRange(s)) && ErrorLoadingDefaults !in s.status
    requires OptimalDefaultsEnabled !in s.status && ForceNoChecksum !in s.status
    requires Diagnosed(s)
    ensures var s' := Settle(s);
      && Coherent(s') && SameShape(s, s') && Steady(s')
      && ForceNoChecksum !in s'.status && ErrorLoadingDefaults !in s'.status
      && (OptimalDefaultsEnabled in s'.status <==> Virtualizes(s))
  {
    hide Flush, BufferOn, Layout, Sum, View, Load;
    if !Bad(s) {
      assert BadChecksum !in s.status * {BadChecksum, BadBattery};
    } else if RecoversInPei(s) {
      LoadIsCoherent(s);
      LoadStatus(s);
      LoadSucceeds(s);
      FlushShape(s);
    } else {
      BufferOnIsCoherent(s);
    }
  }

  // ---- When PEI virtualizes --------------------------------------------------------------------------

  /** The answers make PEI load the defaults before it decides. */
  predicate LoadsFirst(s: State, a: Answers, policy: Policy) {
    && UsableAfter(s, a) && Answered(s, a, policy, BspIsExecuting)
    && Answered(s, a, policy, FirstBootDetected) && Answered(s, a, policy, ColdBootDetected)
  }

  /** PEI will turn the buffer on: it may not recover, and the battery is bad, or the
      checksum is and no load has repaired it. */
  predicate WillVirtualize(s: State, a: Answers, policy: Policy) {
    !(UsableAfter(s, a) && Answered(s, a, policy, RecoverInPei)) && WillBeBad(s, a, policy)
  }

  lemma PrepareBit(s: State, p: pointer, f: Flag)
    requires Steady(s) && ErrorLoadingDefaults !in s.status && ApiLayout(s.cfg) && API_BYTE3 + 4 <= |s.cells|
    requires f !in LOAD_BITS || f == BadChecksum
    ensures f in Prepare(s, p).status <==>
      f in s.status
      && !(f == BadChecksum && {IsUsable, BspIsExecuting, FirstBootDetected, ColdBootDetected} <= s.status)
  {
    hide SaveApi, Layout, Load, ApiLayout, Undisturbed, Coherent, FinishLoad, AfterLoop, EndLoad, SameStore;
    if {IsUsable, BspIsExecuting} <= s.status {
      var s1 := if {FirstBootDetected, ColdBootDetected} <= s.status then Load(s).1 else s;
      if {FirstBootDetected, ColdBootDetected} <= s.status {
        if f != BadChecksum { LoadLeavesBit(s, f); }
        LoadStatus(s);
      }
      SaveApiKeepsChecksum(s1, p);
      var s2 := SaveApi(s1, p).1;
      assert f in s2.status <==> f in s2.status - {AddressIsChecksummed};
      assert f in s1.status <==> f in s1.status - {AddressIsChecksummed};
    }
  }

  /** PEI finds something bad when it decides. */
  predicate WillBeBad(s: State, a: Answers, policy: Policy) {
    !LastSaysYes(a.batteryGood) || (!Coherent(Routed(s, a, policy)) && !LoadsFirst(s, a, policy))
  }

  /** PEI will load the defaults to repair it. */
  predicate WillRecover(s: State, a: Answers, policy: Policy) {
    UsableAfter(s, a) && Answered(s, a, policy, RecoverInPei) && WillBeBad(s, a, policy)
  }

  /** The decision, in terms of what PEI starts from. */
  lemma VirtualizesIff(s: State, a: Answers, policy: Policy, p: pointer)
    requires Steady(s) && s.status !! GUARDED && ApiLayout(s.cfg) && API_BYTE3 + 4 <= |s.cells|
    ensures var m := Prepare(Open(s, a, policy), p);
      && (Virtualizes(m) <==> WillVirtualize(s, a, policy))
      && (Bad(m) && RecoversInPei(m) <==> WillRecover(s, a, policy))
  {
    hide Open, Prepare, Layout, ApiLayout, UsableAfter, Coherent, Routed, LastSaysYes;
    var o := Open(s, a, policy);
    OpenDiagnoses(s, a, policy);
    assert ErrorLoadingDefaults in GUARDED;
    forall f | f in {IsUsable, BspIsExecuting, FirstBootDetected, ColdBootDetected, RecoverInPei, BadBattery}
      ensures f in o.status <==> Answered(s, a, policy, f)
    {
      OpenStatus(s, a, policy, f);
    }
    OpenFindsCoherence(s, a, policy);
    PrepareBit(o, p, IsUsable);
    PrepareBit(o, p, RecoverInPei);
    PrepareBit(o, p, BadBattery);
    PrepareBit(o, p, BadChecksum);
    var m := Prepare(o, p);
    assert Bad(m) <==> BadChecksum in m.status || BadBattery in m.status by {
      assert BadChecksum in m.status <==> BadChecksum in m.status * {BadChecksum, BadBattery};
      assert BadBattery in m.status <==> BadBattery in m.status * {BadChecksum, BadBattery};
    }
  }

  /** A table with one entry for each register that the loader does not skip, which is
      all the loader asks for, never covers the range: the status registers are
      unmanaged.  Such a board must not be virtualized. */
  lemma LoaderTableIsTooShort(s: State)
    requires Layout(s.cfg) && |s.table| == DefaultIndex(s.cfg, s.cfg.last + 1)
    ensures !CoversRange(s)
    ensures forall r: nat :: Managed(s.cfg, r) && !Unmanaged(s.cfg, r) ==> 0 < DefaultIndex(s.cfg, r) < |s.table|
  {
    hide Unmanaged, Layout, DefaultIndex;
    StatusRegisterCounts(s.cfg);
    forall r: nat | Managed(s.cfg, r) && !Unmanaged(s.cfg, r)
      ensures 0 < DefaultIndex(s.cfg, r) < |s.table|
    {
      LoadedRegisterCounts(s.cfg, r);
    }
  }

  lemma StatusRegisterCounts(c: Config)
    requires Layout(c)
    ensures DefaultIndex(c, c.last + 1) <= c.last + 1 - c.first
  {
    hide Unmanaged, ChecksumLayout, RangeLayout;
    UnmanagedBelowMonotone(c, c.batteryBad.address + 1, c.last + 1);
  }

  lemma LoadedRegisterCounts(c: Config, r: nat)
    requires Managed(c, r) && !Unmanaged(c, r)
    ensures 0 < DefaultIndex(c, r) < DefaultIndex(c, c.last + 1)
  {
    hide Unmanaged;
    UnmanagedBelowBound(c, r);
    UnmanagedBelowMonotone(c, r + 1, c.last + 1);
  }

  lemma FlushShape(s: State)
    requires Steady(s) && ErrorLoadingDefaults !in s.status
    ensures SameShape(s, Flush(s)) && Steady(Flush(s)) && HobInStep(Flush(s))
    ensures Flush(s).status == Load(s).1.status - {OptimalDefaultsEnabled}
  {
    hide Load, Layout;
    LoadStatus(s);
    BufferOffEffect(Load(s).1);
  }

  /** Installing changes two status bits and nothing that clients can see. */
  lemma InstallEffect(s: State, installed: bool)
    ensures var s' := Install(s, installed);
      && Undisturbed(s, s') && Guarded(s, s') && s'.cells == s.cells && s'.table == s.table
      && (Coherent(s') <==> Coherent(s)) && (ValidManager in s'.status <==> installed)
      && (InstallFailed in s'.status <==> !installed || InstallFailed in s.status)
      && s'.checksum == s.checksum
  {
    hide SetClear, Sum, View;
    PlainSetClear(s, {ValidManager}, true);
    PlainSetClear(s, {InstallFailed}, true);
    FlipUndisturbed(s, {ValidManager}, true);
    FlipUndisturbed(s, {InstallFailed}, true);
    var s1 := Flip(s, {InstallFailed}, true);
    PlainSetClear(s1, {ValidManager}, false);
    FlipUndisturbed(s1, {ValidManager}, false);
    UndisturbedTransitive(s, s1, Flip(s1, {ValidManager}, false));
    UndisturbedKeepsChecksum(s, Install(s, installed));
  }

  /** Install the interface of a manager that passed the entry checks. */
  function Conclude(s: State, passed: bool, installed: bool): State {
    if passed then Install(s, installed) else s
  }

  lemma ConcludeEffect(s: State, passed: bool, installed: bool)
    ensures var s' := Conclude(s, passed, installed);
      && Undisturbed(s, s') && Guarded(s, s') && s'.cells == s.cells && s'.table == s.table
      && (Coherent(s') <==> Coherent(s))
      && (ValidManager in s'.status <==> if passed then installed else ValidManager in s.status)
  {
    hide Install, Coherent;
    InstallEffect(s, installed);
  }

  lemma NewPeiEffect(cfg: Config, cells: seq<byte>, table: seq<byte>, inMemory: bool)
    ensures var s := NewPei(cfg, cells, table, inMemory);
      && s.cfg == cfg && s.cells == cells && s.table == table && s.hob == None && !s.dxe
      && s.status == (if inMemory then {ValidInterface, ExecutingInMemory} else {ValidInterface})
      && s.status !! GUARDED
  {
    var s := State(cfg, {ValidInterface}, cells, table, None, 0, false);
    PlainSetClear(s, {ExecutingInMemory}, inMemory);
    hide SetClear;
  }

  /** The manager when PEI decides: the table is as the build left it. */
  lemma TableBeforeDecision(cfg: Config, cells: seq<byte>, table: seq<byte>, inMemory: bool,
                            a: Answers, policy: Policy, p: pointer)
    requires Steady(NewPei(cfg, cells, table, inMemory)) && ApiLayout(cfg) && API_BYTE3 + 4 <= |cells|
    ensures var m := Prepare(Open(NewPei(cfg, cells, table, inMemory), a, policy), p);
      && m.cfg == cfg && m.table == table && Steady(m) && (ExecutingInMemory in m.status <==> inMemory)
      && OptimalDefaultsEnabled !in m.status && ErrorLoadingDefaults !in m.status
  {
    hide NewPei, Open, Prepare, ApiLayout, Layout, Diagnosed, SameStore;
    var s := NewPei(cfg, cells, table, inMemory);
    var o := Open(s, a, policy);
    NewPeiEffect(cfg, cells, table, inMemory);
    assert ForceNoChecksum in GUARDED && ErrorLoadingDefaults in GUARDED && OptimalDefaultsEnabled in GUARDED;
    OpenDiagnoses(s, a, policy);
    OpenCalm(s, a, policy);
    OpenStatus(s, a, policy, ExecutingInMemory);
    PrepareEffect(o, p);
    PrepareKeepsTable(o, p);
  }

  /** PEI may turn the buffer on only if the table covers the range; every other
      outcome of the entry works with a table of any length. */
  predicate TableSuffices(s: State, a: Answers, policy: Policy) {
    WillVirtualize(s, a, policy) ==> CoversRange(s)
  }

  /** From arbitrary CMOS contents and arbitrary hook answers, PEI ends with a
      coherent view, checksum updating enabled and no loading error; it virtualizes
      exactly when something is bad and PEI recovery is not possible. */
  lemma PeiBootIsCoherent(cfg: Config, cells: seq<byte>, table: seq<byte>, inMemory: bool,
                          a: Answers, policy: Policy, p: pointer, installed: bool)
    requires Steady(NewPei(cfg, cells, table, inMemory))
    requires TableSuffices(NewPei(cfg, cells, table, inMemory), a, policy)
    requires ApiLayout(cfg) && API_BYTE3 + 4 <= |cells|
    ensures var s := NewPei(cfg, cells, table, inMemory);
            var s' := PeiEntry(s, a, policy, p, installed);
      && Coherent(s') && Steady(s') && SameShape(s, s')
      && ForceNoChecksum !in s'.status && ErrorLoadingDefaults !in s'.status
      && (ValidManager in s'.status <==> installed)
      && (OptimalDefaultsEnabled in s'.status <==> WillVirtualize(s, a, policy))
  {
    hide NewPei, Open, Prepare, Settle, Install, ApiLayout, Sum, View, Layout, WillVirtualize, Virtualizes;
    var s := NewPei(cfg, cells, table, inMemory);
    NewPeiEffect(cfg, cells, table, inMemory);
    assert forall f :: f in GUARDED ==> f !in s.status;
    assert ForceNoChecksum in GUARDED && ErrorLoadingDefaults in GUARDED && OptimalDefaultsEnabled in GUARDED;
    var s1 := Open(s, a, policy);
    OpenDiagnoses(s, a, policy);
    OpenKeepsChecks(s, a, policy);
    PrepareEffect(s1, p);
    VirtualizesIff(s, a, policy, p);
    var s2 := Settle(Prepare(s1, p));
    SettleIsCoherent(Prepare(s1, p));
    InstallEffect(s2, installed);
    GuardedSteady(s2, Install(s2, installed));
  }
}
