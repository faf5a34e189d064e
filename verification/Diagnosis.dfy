/** The legacy diagnostic byte, register 0xe, and the bad-checksum bit after the larger
    operations: opening a manager, loading the defaults and turning the buffer on. */
module Diagnosis {
  import opened CmosTypes
  import opened BitFields
  import opened CmosModel
  import opened Coherence
  import opened StatusUpdates
  import opened LegacyStatus
  import opened Loader
  import opened Boot
  import opened StatusMemory

  /** The diagnostic byte keeps all bits but the checksum bit. */
  ghost predicate SameButChecksumBit(b: byte, b': byte) {
    Masked(b', 0x3f) == Masked(b, 0x3f) && (HasBit(b', 0x80) <==> HasBit(b, 0x80))
  }

  lemma SetClearKeepsDiagnostic(s: State, bits: Bitmap, on: bool)
    requires Layout(s.cfg) && DIAGNOSTIC_REGISTER < |s.cells|
    requires BadChecksum !in bits && BadBattery !in bits
    ensures Diagnostic(SetClear(s, bits, on)) == Diagnostic(s)
  {
    hide SetClear, Layout;
    SetClearDiagnostic(s, bits, on);
  }

  /** One update of the bad-checksum bit. */
  lemma ChecksumBitUpdate(s: State, on: bool)
    requires Layout(s.cfg) && DIAGNOSTIC_REGISTER < |s.cells|
    ensures var s' := SetClear(s, {BadChecksum}, on);
      && SameButChecksumBit(Diagnostic(s), Diagnostic(s'))
      && (HasBit(Diagnostic(s'), 0x40) <==> on || (!s.dxe && HasBit(Diagnostic(s), 0x40)))
  {
    hide SetClear, Layout, LegacyByte, Diagnostic, HasBit, Masked;
    SetClearDiagnostic(s, {BadChecksum}, on);
    LegacyByteEffect(Diagnostic(s), {BadChecksum}, on, s.dxe);
  }

  // ---- Loading ----------------------------------------------------------------------------------

  lemma StoreChecksumDiagnostic(s: State, w: word)
    requires RangeLayout(s.cfg) && ChecksumLayout(s.cfg)
    ensures Diagnostic(StoreChecksum(s, w)) == Diagnostic(s)
  {
    StoreChecksumKeepsCell(s, w, DIAGNOSTIC_REGISTER);
    hide StoreChecksum;
  }

  lemma FinishLoadDiagnostic(s: State)
    requires Steady(s)
    ensures var s' := FinishLoad(s);
      && SameButChecksumBit(Diagnostic(s), Diagnostic(s'))
      && (HasBit(Diagnostic(s'), 0x40) <==> !s.dxe && (HasBit(Diagnostic(s), 0x40) || !Coherent(s)))
  {
    hide SetClear, StoreChecksum, Layout, Sum, StoredChecksum, Diagnostic, HasBit, Masked, SameStore, Coherent;
    var bad := StoredChecksum(s) != Sum(s) % 0x1_0000;
    var w: word := Sum(s) % 0x1_0000;
    var s1 := SetClear(s, {BadChecksum}, bad);
    LayoutParts(s.cfg);
    ComparisonDecides(s);
    SetClearCalm(s, {BadChecksum}, bad);
    ChecksumBitUpdate(s, bad);
    StoreChecksumDiagnostic(s1, w);
    StoreChecksumShapeOf(s1, w);
    ChecksumBitUpdate(StoreChecksum(s1, w), false);
  }

  lemma StoreChecksumShapeOf(s: State, w: word)
    ensures SameShape(s, StoreChecksum(s, w))
  {
    hide Reach;
  }

  lemma AfterLoopDiagnostic(s: State)
    requires Steady(s)
    ensures var s' := AfterLoop(s);
      && SameButChecksumBit(Diagnostic(s), Diagnostic(s'))
      && (HasBit(Diagnostic(s'), 0x40) <==>
            HasBit(Diagnostic(s), 0x40) && !(s.dxe && FirstBootDetected in s.status))
  {
    hide SetClear, Layout, HasBit, Masked, Loads;
    var s1 := SetClear(s, {OptimalDefaultsEnabled}, false);
    var s2 := SetClear(s1, {ForceNoChecksum}, true);
    PlainSetClear(s, {OptimalDefaultsEnabled}, false);
    PlainSetClear(s1, {ForceNoChecksum}, true);
    ChecksumBitUpdate(s2, false);
    AfterLoopShape(s);
    DiagnosticNotLoaded(BeginLoad(s));
  }

  lemma DiagnosticNotLoaded(s: State)
    requires Layout(s.cfg)
    ensures !Loads(s, DIAGNOSTIC_REGISTER)
  {
  }

  lemma EndLoadDiagnostic(s: State, saved: Bitmap)
    requires Layout(s.cfg) && DIAGNOSTIC_REGISTER < |s.cells|
    ensures Diagnostic(EndLoad(s, saved)) == Diagnostic(s)
  {
    hide SetClear, Layout;
    var s1 := s.(status := s.status + saved);
    SetClearKeepsDiagnostic(s1, {ForceNoChecksum}, false);
    PlainSetClear(s1, {ForceNoChecksum}, false);
    SetClearKeepsDiagnostic(SetClear(s1, {ForceNoChecksum}, false), {DefaultsLoaded}, true);
  }

  /** A load diagnoses the registers as its loop left them, and repairs afterwards: in
      PEI the checksum-bad bit of register 0xe ends set exactly if it was set or that
      diagnosis was bad, and in DXE it ends clear.  A load that was refused by an earlier
      error diagnoses nothing.  The other bits stay. */
  lemma LoadDiagnostic(s: State)
    requires Steady(s)
    ensures var s' := Load(s).1;
      && SameButChecksumBit(Diagnostic(s), Diagnostic(s'))
      && (ErrorLoadingDefaults !in s.status ==>
            (HasBit(Diagnostic(s'), 0x40) <==> !s.dxe && (HasBit(Diagnostic(s), 0x40) || !Coherent(AfterLoop(s)))))
      && (ErrorLoadingDefaults in s.status ==>
            (HasBit(Diagnostic(s'), 0x40) <==>
               HasBit(Diagnostic(s), 0x40) && !(s.dxe && FirstBootDetected in s.status)))
  {
    hide EndLoad, FinishLoad, BeginLoad, Layout, LoadedCells, Diagnostic, HasBit, Masked, Coherent;
    var saved := s.status * {OptimalDefaultsEnabled};
    var l := AfterLoop(s);
    AfterLoopShape(s);
    AfterLoopDiagnostic(s);
    FinishLoadDiagnostic(l);
    FinishLoadEffect(l);
    EndLoadDiagnostic(l, saved);
    EndLoadDiagnostic(FinishLoad(l), saved);
  }

  // ---- Turning the buffer on ------------------------------------------------------------------------

  /** The buffer's stored checksum is compared with its registers before it is replaced:
      the bad-checksum bit and its mirror tell how the table was built, and the manager's
      own copy is the checksum stored. */
  lemma BufferOnDiagnoses(s: State)
    requires Steady(s) && CoversRange(s) && OptimalDefaultsEnabled !in s.status
    ensures var b := s.(status := s.status + {OptimalDefaultsEnabled});
            var s' := BufferOn(s);
      && (BadChecksum in s'.status <==> !Coherent(b))
      && (HasBit(Diagnostic(s'), 0x40) <==> !Coherent(b) || (!s.dxe && HasBit(Diagnostic(s), 0x40)))
      && SameButChecksumBit(Diagnostic(s), Diagnostic(s'))
      && s'.checksum == StoredChecksum(s') == Sum(b)
  {
    hide SetClear, Layout, BufferOn, Sum, StoredChecksum, Diagnostic, HasBit, Masked, Coherent;
    var b := s.(status := s.status + {OptimalDefaultsEnabled});
    var s1 := SetClear(s, {OptimalDefaultsEnabled}, true);
    PlainSetClear(s, {OptimalDefaultsEnabled}, true);
    BlockIrrelevant(b, s1);
    SetClearKeepsDiagnostic(s, {OptimalDefaultsEnabled}, true);
    BufferOnIsStore(s);
    StoreAfterDiagnosis(s1);
  }

  lemma BufferOnIsStore(s: State)
    requires OptimalDefaultsEnabled !in s.status
    ensures BufferOn(s) == DiagnoseAndStore(SetClear(s, {OptimalDefaultsEnabled}, true))
  {
    hide SetClear, StoreChecksum, Sum;
  }

  /** Scan, keep the sum, store it. */
  function DiagnoseAndStore(s: State): State {
    StoreChecksum(Recalculate(s).(checksum := Sum(s) % 0x1_0000), Sum(s) % 0x1_0000)
  }

  lemma StoreAfterDiagnosis(s: State)
    requires Steady(s)
    ensures var s' := DiagnoseAndStore(s);
      && (BadChecksum in s'.status <==> !Coherent(s))
      && (HasBit(Diagnostic(s'), 0x40) <==> !Coherent(s) || (!s.dxe && HasBit(Diagnostic(s), 0x40)))
      && SameButChecksumBit(Diagnostic(s), Diagnostic(s'))
      && s'.checksum == StoredChecksum(s') == Sum(s)
  {
    hide SetClear, Layout, StoreChecksum, Sum, StoredChecksum, Diagnostic, HasBit, Masked, Coherent, Undisturbed;
    hide IsStatusRegister;
    var w: word := Sum(s) % 0x1_0000;
    var bad := StoredChecksum(s) != w;
    LayoutParts(s.cfg);
    SumFits(s);
    ComparisonDecides(s);
    RecalculateEffect(s);
    ChecksumBitUpdate(s, bad);
    var s2 := Recalculate(s).(checksum := w);
    SameFit(s, s2);
    DiagnosticOfCells(Recalculate(s), s2);
    StoreChecksumEffect(s2, w);
    StoreChecksumDiagnostic(s2, w);
    StoreChecksumField(s2, w);
  }

  lemma StoreChecksumField(s: State, w: word)
    ensures StoreChecksum(s, w).checksum == s.checksum
  {
    hide Reach;
  }

  lemma DiagnosticOfCells(s: State, s': State)
    requires s'.cells == s.cells
    ensures Diagnostic(s') == Diagnostic(s)
  {
  }

  lemma BlockIrrelevant(s: State, s': State)
    requires s' == s.(hob := s'.hob)
    ensures Sum(s') == Sum(s) && StoredChecksum(s') == StoredChecksum(s) && (Coherent(s') <==> Coherent(s))
  {
    SumFrame(s, s', s.cfg.last + 1);
  }

  // ---- Opening a manager ---------------------------------------------------------------------------

  lemma AskUsableDiagnostic(s: State, answers: seq<bool>)
    requires Layout(s.cfg) && DIAGNOSTIC_REGISTER < |s.cells|
    ensures Diagnostic(AskUsable(s, answers)) == Diagnostic(s)
  {
    hide AskUsable;
    AskUsableCells(s, answers);
  }

  lemma {:induction false} AskDiagnostic(s: State, answers: seq<bool>, f: Flag)
    requires Layout(s.cfg) && DIAGNOSTIC_REGISTER < |s.cells| && f !in {BadChecksum, BadBattery} + GUARDED
    ensures Diagnostic(Ask(s, answers, f)) == Diagnostic(s)
    decreases |answers|
  {
    hide SetClear, Layout, Diagnostic, SameStore;
    if answers != [] {
      SetClearKeepsDiagnostic(s, {f}, true);
      SetClearCalm(s, {f}, true);
      AskDiagnostic(if answers[0] then SetClear(s, {f}, true) else s, answers[1..], f);
    }
  }

  lemma ProbeDiagnostic(s: State, a: Answers, policy: Policy)
    requires Layout(s.cfg) && DIAGNOSTIC_REGISTER < |s.cells|
    ensures Diagnostic(Probe(s, a, policy)) == Diagnostic(s)
  {
    hide SetClear, Layout, AskUsable, Ask, Diagnostic, SameStore;
    var s1 := AskUsable(s, a.usable);
    var s2 := Ask(s1, a.firstBoot, FirstBootDetected);
    var s3 := Ask(s2, a.coldBoot, ColdBootDetected);
    var s4 := Ask(s3, a.bsp, BspIsExecuting);
    var s5 := if policy.onlyChecksummed then SetClear(s4, {RecoverOnlyChecksummed}, true) else s4;
    AskUsableCalm(s, a.usable);
    AskUsableDiagnostic(s, a.usable);
    AskCalm(s1, a.firstBoot, FirstBootDetected);
    AskDiagnostic(s1, a.firstBoot, FirstBootDetected);
    AskCalm(s2, a.coldBoot, ColdBootDetected);
    AskDiagnostic(s2, a.coldBoot, ColdBootDetected);
    AskCalm(s3, a.bsp, BspIsExecuting);
    AskDiagnostic(s3, a.bsp, BspIsExecuting);
    SetClearKeepsDiagnostic(s4, {RecoverOnlyChecksummed}, true);
    SetClearCalm(s4, {RecoverOnlyChecksummed}, true);
    SetClearKeepsDiagnostic(s5, {RecoverInPei}, true);
  }

  /** After opening, register 0xe mirrors the diagnosis: in DXE exactly, in PEI on top of
      what was set before. */
  lemma OpenDiagnostic(s: State, a: Answers, policy: Policy)
    requires Steady(s)
    ensures var s' := Open(s, a, policy);
      && (HasBit(Diagnostic(s'), 0x40) <==>
            !Coherent(Routed(s, a, policy)) || (!s.dxe && HasBit(Diagnostic(s), 0x40)))
      && (HasBit(Diagnostic(s'), 0x80) <==>
            !LastSaysYes(a.batteryGood) || (!s.dxe && HasBit(Diagnostic(s), 0x80)))
      && Masked(Diagnostic(s'), 0x3f) == Masked(Diagnostic(s), 0x3f)
  {
    hide SetClear, Layout, Probe, Sum, StoredChecksum, Diagnostic, HasBit, Masked, Routed, LastSaysYes, LegacyByte;
    hide SameStore, Coherent;
    var s1 := Probe(s, a, policy);
    var bad := StoredChecksum(s1) != Sum(s1) % 0x1_0000;
    var s2 := SetClear(s1, {BadChecksum}, bad);
    var s3 := s2.(checksum := Sum(s1) % 0x1_0000);
    ProbeCalm(s, a, policy);
    ProbeDiagnostic(s, a, policy);
    ProbeFindsCoherence(s, a, policy);
    SetClearCalm(s1, {BadChecksum}, bad);
    ChecksumBitUpdate(s1, bad);
    DiagnosticOfCells(s2, s3);
    SetClearDiagnostic(s3, {BadBattery}, !LastSaysYes(a.batteryGood));
    LegacyByteEffect(Diagnostic(s3), {BadBattery}, !LastSaysYes(a.batteryGood), s3.dxe);
  }
}
