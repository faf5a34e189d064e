/** The tokens of the persisted status bits in physical CMOS: what status updates,
    opening a manager, loading and flushing record there. */
module StatusMemory {
  import opened CmosTypes
  import opened BitFields
  import opened CmosModel
  import opened Coherence
  import opened TokenLaws
  import opened StatusUpdates
  import opened PersistedStatus
  import opened Loader
  import opened Boot
  import opened HandOff

  /** The token of a persisted bit is set in physical CMOS. */
  predicate HeldInCmos(s: State, f: Flag)
    requires f in PERSISTED
  {
    ProperField(TokenFor(s.cfg, f)) && Decode(Cmos(s, TokenFor(s.cfg, f).address), TokenFor(s.cfg, f)) == 1
  }

  /** A persisted bit goes to physical CMOS, not to the buffer. */
  predicate PersistsInCmos(s: State, f: Flag)
    requires f in PERSISTED
  {
    IsUsable in s.status && !RoutesToBuffer(s, TokenFor(s.cfg, f).address)
  }

  lemma WriteOneCmos(s: State, f: Flag, a: nat)
    requires Steady(s) && f in PERSISTED
    ensures var t := TokenFor(s.cfg, f);
      && ProperField(t) && !Overflows(1, t)
      && Cmos(WriteField(s, t, 1), a)
         == if a == t.address && !RoutesToBuffer(s, a) then Insert(Cmos(s, a), t, 1) else Cmos(s, a)
  {
    hide Overflows, Insert, RangeLayout, ChecksumLayout, NotChecksummed, Unmanaged;
    StatusTokenFacts(s, f);
    var t := TokenFor(s.cfg, f);
    StatusTokenExcluded(s, f);
    if RoutesToBuffer(s, t.address) {
      BufferedWriteCells(s, t);
    } else {
      WriteFieldIsReplace(s, t, 1);
    }
  }

  lemma StatusTokenExcluded(s: State, f: Flag)
    requires Steady(s) && f in PERSISTED
    ensures Excluded(s.cfg, TokenFor(s.cfg, f).address)
  {
  }

  lemma BufferedWriteCells(s: State, t: Token)
    requires ProperField(t) && RoutesToBuffer(s, t.address) && Excluded(s.cfg, t.address)
    ensures WriteField(s, t, 1).cells == s.cells
  {
    hide Overflows, Merge, Encode, FieldMask, NotChecksummed, Unmanaged;
  }

  lemma PersistHeld(s: State, bits: Bitmap, f: Flag, g: Flag)
    requires Steady(s) && StatusTokensApart(s.cfg) && f in PERSISTED && g in PERSISTED
    ensures var s' := Persist(s, bits, f, TokenFor(s.cfg, f));
      && Steady(s') && SameRouting(s, s') && s'.cfg == s.cfg
      && (HeldInCmos(s', g) <==>
            HeldInCmos(s, g) || (f == g && f in bits && !RoutesToBuffer(s, TokenFor(s.cfg, f).address)))
  {
    hide Overflows, WriteField, Layout, Insert, Decode, RoutesToBuffer, StatusTokensApart, TokenFor;
    hide DisjointFields, Cmos;
    var t, t' := TokenFor(s.cfg, f), TokenFor(s.cfg, g);
    StatusTokenFacts(s, f);
    StatusTokenFacts(s, g);
    if f in bits {
      WriteOneCmos(s, f, t'.address);
      WriteFieldView(s, t, 1, t.address);
      WriteFieldSteady(s, t, 1);
      WriteFieldRouting(s, t, 1);
      if f == g {
        FieldRoundTrip(Cmos(s, t.address), 1, t);
      } else {
        StatusTokensApartFact(s.cfg, f, g);
        if t'.address == t.address { FieldsDoNotInterfere(Cmos(s, t.address), 1, t, t'); }
      }
    }
  }

  lemma WriteFieldRouting(s: State, t: Token, v: byte)
    requires ProperField(t)
    ensures SameRouting(s, WriteField(s, t, v))
  {
    hide Replace, Overflows, Merge, Encode, FieldMask, Reach;
    var c := Reach(s, t.address);
    ReplaceShape(s, t.address, c, Merge(Peek(s, c, 0), FieldMask(t), Encode(v, t)));
  }

  lemma SameRoutes(s: State, s': State, g: Flag)
    requires s'.cfg == s.cfg && SameRouting(s, s') && g in PERSISTED
    ensures PersistsInCmos(s', g) <==> PersistsInCmos(s, g)
    ensures RoutesToBuffer(s', TokenFor(s.cfg, g).address) <==> RoutesToBuffer(s, TokenFor(s.cfg, g).address)
  {
    hide NotChecksummed, TokenFor;
    forall f | f in ROUTING ensures f in s'.status <==> f in s.status {
      assert f in s.status <==> f in s.status * ROUTING;
      assert f in s'.status <==> f in s'.status * ROUTING;
    }
  }

  lemma PersistAllHeld(s: State, bits: Bitmap, g: Flag)
    requires Steady(s) && StatusTokensApart(s.cfg) && g in PERSISTED
    ensures HeldInCmos(PersistAll(s, bits), g) <==>
      HeldInCmos(s, g) || (g in bits && !RoutesToBuffer(s, TokenFor(s.cfg, g).address))
  {
    hide Persist, Steady, HeldInCmos, StatusTokensApart, RoutesToBuffer;
    var s1 := Persist(s, bits, BadBattery, s.cfg.batteryBad);
    var s2 := Persist(s1, bits, BadChecksum, s.cfg.checksumBad);
    var s3 := Persist(s2, bits, DefaultsLoaded, s.cfg.defaultsLoaded);
    PersistHeld(s, bits, BadBattery, g);
    PersistHeld(s1, bits, BadChecksum, g);
    PersistHeld(s2, bits, DefaultsLoaded, g);
    PersistHeld(s3, bits, FirstBootDetected, g);
    SameRoutes(s, s1, g);
    SameRoutes(s1, s2, g);
    SameRoutes(s2, s3, g);
  }

  lemma MirrorsHeld(s: State, bits: Bitmap, on: bool, g: Flag)
    requires Steady(s) && g in PERSISTED
    ensures HeldInCmos(SyncHob(SyncLegacy(s, bits, on)), g) <==> HeldInCmos(s, g)
  {
    hide LegacyByte, Decode, NotChecksummed, Unmanaged;
  }

  /** A status update that leaves the routing alone sets the token in CMOS exactly for
      a raised bit that is persisted there, and never clears it. */
  lemma SetClearHeld(s: State, bits: Bitmap, on: bool, g: Flag)
    requires Steady(s) && StatusTokensApart(s.cfg) && g in PERSISTED && bits !! ROUTING
    ensures HeldInCmos(SetClear(s, bits, on), g) <==>
      HeldInCmos(s, g) || (on && g in bits && PersistsInCmos(s, g))
  {
    hide PersistAll, SyncLegacy, SyncHob, Layout, SameStore, StatusTokensApart, HeldInCmos, RoutesToBuffer;
    var s1 := Assign(s, bits, on);
    assert SameRouting(s, s1);
    SteadinessKept(s, s1);
    SameRoutes(s, s1, g);
    SameCellsHeld(s, s1, g);
    var s2 := if on && IsUsable in s1.status then PersistAll(s1, bits) else s1;
    LayoutParts(s.cfg);
    PersistAllIsQuiet(s1, bits);
    PersistAllHeld(s1, bits, g);
    if s2 != s1 { SteadinessKept(s1, s2); }
    MirrorsHeld(s2, bits, on, g);
  }

  lemma SameCellsHeld(s: State, s': State, g: Flag)
    requires s'.cfg == s.cfg && s'.cells == s.cells && g in PERSISTED
    ensures HeldInCmos(s', g) <==> HeldInCmos(s, g)
  {
  }

  lemma FinishLoadHeld(s: State, g: Flag)
    requires Steady(s) && StatusTokensApart(s.cfg) && g in PERSISTED
    ensures HeldInCmos(FinishLoad(s), g) <==>
      HeldInCmos(s, g) || (g == BadChecksum && !Coherent(s) && PersistsInCmos(s, g))
  {
    hide SetClear, StoreChecksum, Layout, Sum, StoredChecksum, StatusTokensApart, HeldInCmos, PersistsInCmos;
    hide Coherent, Undisturbed, BlockSumKept, IsStatusRegister;
    var bad := StoredChecksum(s) != Sum(s) % 0x1_0000;
    var w: word := Sum(s) % 0x1_0000;
    var s1 := SetClear(s, {BadChecksum}, bad);
    var s2 := StoreChecksum(s1, w);
    LayoutParts(s.cfg);
    ComparisonDecides(s);
    SetClearHeld(s, {BadChecksum}, bad, g);
    SetClearCalm(s, {BadChecksum}, bad);
    GuardedSteady(s, s1);
    StoreChecksumHeld(s1, w, g);
    SetClearHeld(s2, {BadChecksum}, false, g);
  }

  lemma StoreChecksumHeld(s: State, w: word, g: Flag)
    requires Steady(s) && g in PERSISTED
    ensures Steady(StoreChecksum(s, w)) && (HeldInCmos(StoreChecksum(s, w), g) <==> HeldInCmos(s, g))
  {
    hide StoreChecksum, Decode, Layout, TokenFor;
    LayoutParts(s.cfg);
    StoreChecksumEffect(s, w);
    SteadinessKept(s, StoreChecksum(s, w));
    StatusTokenFacts(s, g);
    StoreChecksumKeepsCell(s, w, TokenFor(s.cfg, g).address);
  }

  lemma StoreChecksumKeepsCell(s: State, w: word, a: nat)
    requires !IsChecksumRegister(s.cfg, a)
    ensures Cmos(StoreChecksum(s, w), a) == Cmos(s, a)
  {
    hide NotChecksummed;
  }

  lemma LoopHeld(s: State, g: Flag)
    requires Steady(s) && StatusTokensApart(s.cfg) && g in PERSISTED
    ensures HeldInCmos(AfterLoop(s), g) <==> HeldInCmos(s, g)
  {
    hide SetClear, Decode, Layout, StatusTokensApart, TokenFor;
    var s1 := SetClear(s, {OptimalDefaultsEnabled}, false);
    var s2 := SetClear(s1, {ForceNoChecksum}, true);
    PlainSetClear(s, {OptimalDefaultsEnabled}, false);
    PlainSetClear(s1, {ForceNoChecksum}, true);
    SetClearHeld(s2, {BadChecksum}, false, g);
    StatusTokenUnmanaged(s, g);
    AfterLoopShape(s);
  }

  lemma StatusTokenUnmanaged(s: State, f: Flag)
    requires Steady(s) && f in PERSISTED
    ensures Unmanaged(s.cfg, TokenFor(s.cfg, f).address)
  {
  }

  /** A load diagnoses what its loop has left: the bad-checksum token is set, on usable
      CMOS, exactly when the checksum register does not match the registers then; the
      defaults-loaded token is set where the restored routing keeps it. */
  lemma LoadHeld(s: State, g: Flag)
    requires Steady(s) && ErrorLoadingDefaults !in s.status && StatusTokensApart(s.cfg) && g in PERSISTED
    ensures HeldInCmos(Load(s).1, g) <==>
      || HeldInCmos(s, g)
      || (g == BadChecksum && IsUsable in s.status && !Coherent(AfterLoop(s)))
      || (g == DefaultsLoaded && PersistsInCmos(s, g))
  {
    hide SetClear, FinishLoad, AfterLoop, Layout, StatusTokensApart, HeldInCmos, PersistsInCmos, Coherent, Load;
    var saved := s.status * {OptimalDefaultsEnabled};
    var p := FinishLoad(AfterLoop(s));
    var s1 := p.(status := p.status + saved);
    var s2 := SetClear(s1, {ForceNoChecksum}, false);
    AfterLoopShape(s);
    LoopHeld(s, g);
    FinishLoadEffect(AfterLoop(s));
    FinishLoadHeld(AfterLoop(s), g);
    PhysicalPersists(AfterLoop(s), g);
    PlainSetClear(s1, {ForceNoChecksum}, false);
    SameCellsHeld(p, s2, g);
    RestoredRouting(s, p, s2);
    SteadinessKept(s, s2);
    SameRoutes(s, s2, g);
    SetClearHeld(s2, {DefaultsLoaded}, true, g);
    LoadStatus(s);
  }

  lemma PhysicalPersists(s: State, g: Flag)
    requires OptimalDefaultsEnabled !in s.status && g in PERSISTED
    ensures PersistsInCmos(s, g) <==> IsUsable in s.status
  {
  }

  /** After a flush the defaults-loaded token is set exactly when CMOS already held it
      or the load could record it there: with the status register in the buffer it
      is written to the buffer that is then given up. */
  lemma FlushRemembersIff(s: State)
    requires Steady(s) && ErrorLoadingDefaults !in s.status && StatusTokensApart(s.cfg)
    ensures Remembers(Flush(s), DefaultsLoaded) <==>
      HeldInCmos(s, DefaultsLoaded) || PersistsInCmos(s, DefaultsLoaded)
  {
    hide Layout, StatusTokensApart, HeldInCmos, PersistsInCmos, Remembers, Load, Flush, AfterLoop, Coherent;
    LoadHeld(s, DefaultsLoaded);
    FlushHeld(s);
  }

  lemma RestoredRouting(s: State, p: State, s2: State)
    requires SameRouting(AfterLoop(s), p) && Steady(s)
    requires s2.status == p.status + s.status * {OptimalDefaultsEnabled} - {ForceNoChecksum}
    ensures SameRouting(s, s2)
  {
    hide AfterLoop, Layout;
    AfterLoopShape(s);
    forall f | f in ROUTING ensures f in s2.status <==> f in s.status {
      assert f in AfterLoop(s).status * ROUTING <==> f in p.status * ROUTING;
    }
  }

  /** Without the buffer, what is remembered is what CMOS holds. */
  lemma FlushHeld(s: State)
    requires Steady(s) && ErrorLoadingDefaults !in s.status
    ensures Remembers(Flush(s), DefaultsLoaded) <==> HeldInCmos(Load(s).1, DefaultsLoaded)
  {
    hide Load, Layout, Decode;
    LoadStatus(s);
    BufferOffEffect(Load(s).1);
    StatusTokenFacts(Flush(s), DefaultsLoaded);
  }

  lemma {:induction false} AskUsableCells(s: State, answers: seq<bool>)
    ensures AskUsable(s, answers).cells == s.cells && AskUsable(s, answers).cfg == s.cfg
    decreases |answers|
  {
    hide SetClear;
    if answers != [] {
      PlainSetClear(s, {IsUsable}, answers[0]);
      AskUsableCells(SetClear(s, {IsUsable}, answers[0]), answers[1..]);
    }
  }

  lemma {:induction false} AskHeld(s: State, answers: seq<bool>, f: Flag, g: Flag)
    requires Steady(s) && StatusTokensApart(s.cfg) && g in PERSISTED && f !in ROUTING + GUARDED
    ensures HeldInCmos(Ask(s, answers, f), g) <==>
      HeldInCmos(s, g) || (f == g && true in answers && PersistsInCmos(s, g))
    decreases |answers|
  {
    hide SetClear, Layout, StatusTokensApart, HeldInCmos, SameStore, PersistsInCmos;
    if answers != [] {
      assert answers == [answers[0]] + answers[1..];
      var s' := if answers[0] then SetClear(s, {f}, true) else s;
      SetClearHeld(s, {f}, true, g);
      SetClearCalm(s, {f}, true);
      GuardedSteady(s, SetClear(s, {f}, true));
      SetClearKeepsRoutes(s, f, g);
      AskHeld(s', answers[1..], f, g);
    }
  }

  lemma SetClearKeepsRoutes(s: State, f: Flag, g: Flag)
    requires Layout(s.cfg) && f !in ROUTING && g in PERSISTED
    ensures PersistsInCmos(SetClear(s, {f}, true), g) <==> PersistsInCmos(s, g)
  {
    hide SetClear, Layout, NotChecksummed, Undisturbed, SameStore;
    SetClearEffect(s, {f}, true);
    forall h | h in ROUTING ensures h in SetClear(s, {f}, true).status <==> h in s.status {
      BitAfterSetClear(s, {f}, true, h);
    }
    SameStoreConfig(s, SetClear(s, {f}, true));
  }

  lemma SameStoreConfig(s: State, s': State)
    requires SameStore(s, s')
    ensures s'.cfg == s.cfg
  {
  }

  const NO_POLICY := Policy(false, false)

  /** The hooks record a first boot, and nothing else, as soon as CMOS is known to be
      usable and before the policy changes the routing. */
  lemma ProbeHeld(s: State, a: Answers, policy: Policy, g: Flag)
    requires Steady(s) && StatusTokensApart(s.cfg) && g in PERSISTED
    ensures HeldInCmos(Probe(s, a, policy), g) <==>
      || HeldInCmos(s, g)
      || (g == FirstBootDetected && true in a.firstBoot && PersistsInCmos(Routed(s, a, NO_POLICY), g))
  {
    hide SetClear, Layout, AskUsable, Ask, StatusTokensApart, HeldInCmos, SameStore, Fits, PersistsInCmos, Routed;
    var s1 := AskUsable(s, a.usable);
    var s2 := Ask(s1, a.firstBoot, FirstBootDetected);
    var s3 := Ask(s2, a.coldBoot, ColdBootDetected);
    var s4 := Ask(s3, a.bsp, BspIsExecuting);
    var s5 := if policy.onlyChecksummed then SetClear(s4, {RecoverOnlyChecksummed}, true) else s4;
    AskUsableCells(s, a.usable);
    SameCellsHeld(s, s1, g);
    AskUsableCalm(s, a.usable);
    GuardedSteady(s, s1);
    AskUsableRoutes(s, a, g);
    AskHeld(s1, a.firstBoot, FirstBootDetected, g);
    AskCalm(s1, a.firstBoot, FirstBootDetected);
    GuardedSteady(s1, s2);
    AskHeld(s2, a.coldBoot, ColdBootDetected, g);
    AskCalm(s2, a.coldBoot, ColdBootDetected);
    GuardedSteady(s2, s3);
    AskHeld(s3, a.bsp, BspIsExecuting, g);
    PlainSetClear(s4, {RecoverOnlyChecksummed}, true);
    SameCellsHeld(s4, s5, g);
    PlainSetClear(s5, {RecoverInPei}, true);
    SameCellsHeld(s5, Probe(s, a, policy), g);
  }

  lemma AskUsableRoutes(s: State, a: Answers, g: Flag)
    requires Layout(s.cfg) && g in PERSISTED
    ensures PersistsInCmos(AskUsable(s, a.usable), g) <==> PersistsInCmos(Routed(s, a, NO_POLICY), g)
  {
    hide AskUsable, Layout, NotChecksummed;
    AskUsableCells(s, a.usable);
    AskUsableStatus(s, a.usable, IsUsable);
    AskUsableStatus(s, a.usable, OptimalDefaultsEnabled);
    AskUsableStatus(s, a.usable, RecoverOnlyChecksummed);
  }

  lemma ProbePersists(s: State, a: Answers, policy: Policy, g: Flag)
    requires Steady(s) && g in PERSISTED
    ensures PersistsInCmos(Probe(s, a, policy), g) <==> PersistsInCmos(Routed(s, a, policy), g)
    ensures Probe(s, a, policy).cfg == s.cfg
  {
    hide Probe, Layout, NotChecksummed;
    ProbeCalm(s, a, policy);
    forall f | f in ROUTING ensures f in Probe(s, a, policy).status <==> f in Routed(s, a, policy).status {
      ProbeStatus(s, a, policy, f);
    }
  }

  /** Opening a manager records, on usable CMOS to which the status register is routed,
      a first boot, a bad checksum and a bad battery, each in its own token. */
  lemma OpenHeld(s: State, a: Answers, policy: Policy, g: Flag)
    requires Steady(s) && StatusTokensApart(s.cfg) && g in PERSISTED
    ensures HeldInCmos(Open(s, a, policy), g) <==>
      || HeldInCmos(s, g)
      || (g == FirstBootDetected && true in a.firstBoot && PersistsInCmos(Routed(s, a, NO_POLICY), g))
      || (g == BadChecksum && !Coherent(Routed(s, a, policy)) && PersistsInCmos(Routed(s, a, policy), g))
      || (g == BadBattery && !LastSaysYes(a.batteryGood) && PersistsInCmos(Routed(s, a, policy), g))
  {
    hide SetClear, Layout, Probe, StatusTokensApart, HeldInCmos, SameStore, Sum, StoredChecksum, Fits, LastSaysYes;
    hide PersistsInCmos, Routed;
    var s1 := Probe(s, a, policy);
    var bad := StoredChecksum(s1) != Sum(s1) % 0x1_0000;
    var s2 := SetClear(s1, {BadChecksum}, bad);
    var s3 := s2.(checksum := Sum(s1) % 0x1_0000);
    ProbeCalm(s, a, policy);
    GuardedSteady(s, s1);
    ProbeHeld(s, a, policy, g);
    ProbePersists(s, a, policy, g);
    ProbeFindsCoherence(s, a, policy);
    SetClearHeld(s1, {BadChecksum}, bad, g);
    SetClearCalm(s1, {BadChecksum}, bad);
    GuardedSteady(s1, s2);
    RecalculateRoutes(s1, bad, Sum(s1) % 0x1_0000, g);
    SameFit(s2, s3);
    SameCellsHeld(s2, s3, g);
    SetClearHeld(s3, {BadBattery}, !LastSaysYes(a.batteryGood), g);
  }

  lemma RecalculateRoutes(s: State, bad: bool, w: word, g: Flag)
    requires Layout(s.cfg) && g in PERSISTED
    ensures PersistsInCmos(SetClear(s, {BadChecksum}, bad).(checksum := w), g) <==> PersistsInCmos(s, g)
  {
    hide SetClear, Layout, NotChecksummed, Undisturbed, SameStore;
    SetClearEffect(s, {BadChecksum}, bad);
    forall h | h in ROUTING ensures h in SetClear(s, {BadChecksum}, bad).status <==> h in s.status {
      BitAfterSetClear(s, {BadChecksum}, bad, h);
    }
    SameStoreConfig(s, SetClear(s, {BadChecksum}, bad));
  }

  lemma OpenPersists(s: State, a: Answers, policy: Policy)
    requires Steady(s)
    ensures PersistsInCmos(Open(s, a, policy), DefaultsLoaded) <==>
      PersistsInCmos(Routed(s, a, policy), DefaultsLoaded)
  {
    hide Open, Layout, NotChecksummed;
    OpenDiagnoses(s, a, policy);
    forall f | f in ROUTING ensures f in Open(s, a, policy).status <==> f in Routed(s, a, policy).status {
      OpenStatus(s, a, policy, f);
    }
  }

  /** In DXE every flush sets the defaults-loaded bit, but the token that should
      remember it is set exactly when CMOS held it before or the answers and the
      policy route the status register to physical CMOS. */
  lemma DxeRemembersIff(s: State, a: Answers, policy: Policy, installed: bool)
    requires Steady(s) && ErrorLoadingDefaults !in s.status && StatusTokensApart(s.cfg) && WillFlush(s, a)
    ensures var s' := DxeEntry(s, a, policy, installed);
      && DefaultsLoaded in s'.status
      && (Remembers(s', DefaultsLoaded) <==>
            HeldInCmos(s, DefaultsLoaded) || PersistsInCmos(Routed(s, a, policy), DefaultsLoaded))
  {
    hide Open, Conclude, Flush, Load, Layout, HeldInCmos, PersistsInCmos, Routed, SameStore, UsableAfter;
    hide Remembers, StatusTokensApart;
    var o := Open(s, a, policy);
    OpenForDxe(s, a, policy);
    OpenHeld(s, a, policy, DefaultsLoaded);
    OpenPersists(s, a, policy);
    FlushRemembersIff(o);
    LoadStatus(o);
    FlushShape(o);
    ConcludeRemembers(Flush(o), installed);
  }

  lemma InstallRemembers(s: State, installed: bool)
    ensures Remembers(Install(s, installed), DefaultsLoaded) <==> Remembers(s, DefaultsLoaded)
    ensures DefaultsLoaded in Install(s, installed).status <==> DefaultsLoaded in s.status
  {
    hide SetClear, Decode, NotChecksummed;
    PlainSetClear(s, {ValidManager}, true);
    PlainSetClear(s, {InstallFailed}, true);
    PlainSetClear(SetClear(s, {InstallFailed}, true), {ValidManager}, false);
  }

  lemma ConcludeRemembers(s: State, installed: bool)
    ensures Remembers(Conclude(s, true, installed), DefaultsLoaded) <==> Remembers(s, DefaultsLoaded)
    ensures DefaultsLoaded in Conclude(s, true, installed).status <==> DefaultsLoaded in s.status
  {
    hide Install, Remembers;
    InstallRemembers(s, installed);
  }
}
