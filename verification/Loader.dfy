/** Loading the default table into physical CMOS: which register gets which
    entry, what stays, that the result is coherent, and when flushing the buffer
    is invisible to clients. */
module Loader {
  import opened CmosTypes
  import opened BitFields
  import opened CmosModel
  import opened Coherence
  import opened TokenLaws
  import opened StatusUpdates

  // ---- The index of a register's default ------------------------------------------------

  lemma {:induction false} UnmanagedBelowBound(c: Config, r: nat)
    requires c.first <= r
    ensures UnmanagedBelow(c, r) <= r - c.first
  {
    if c.first < r { UnmanagedBelowBound(c, r - 1); }
  }

  lemma {:induction false} UnmanagedBelowMonotone(c: Config, r: nat, r': nat)
    requires r <= r'
    ensures UnmanagedBelow(c, r) <= UnmanagedBelow(c, r')
    ensures c.first <= r ==> DefaultIndex(c, r) <= DefaultIndex(c, r')
    decreases r' - r
  {
    if r < r' { UnmanagedBelowMonotone(c, r, r' - 1); }
  }

  /** The loader and the buffer use the same slot for a register exactly when no
      unmanaged register lies below it. */
  lemma SlotsAgreeIff(c: Config, r: nat)
    requires c.first <= r
    ensures DefaultIndex(c, r) == BufferIndex(c, r)
       <==> forall u: nat :: c.first <= u < r ==> !Unmanaged(c, u)
  {
    hide Unmanaged;
    if u: nat :| c.first <= u < r && Unmanaged(c, u) {
      UnmanagedBelowMonotone(c, u + 1, r);
    } else {
      NoUnmanagedBelow(c, r);
    }
  }

  lemma {:induction false} NoUnmanagedBelow(c: Config, r: nat)
    requires forall u: nat :: c.first <= u < r ==> !Unmanaged(c, u)
    ensures UnmanagedBelow(c, r) == 0
  {
    hide Unmanaged;
    if c.first < r { NoUnmanagedBelow(c, r - 1); }
  }

  /** The registers from the first up to `r` that the loader does not skip. */
  function LoadedBelow(c: Config, r: nat): set<nat> {
    set u: nat | c.first <= u < r && !Unmanaged(c, u)
  }

  /** The entry of a register is the number of registers that the loader writes before
      it, plus one. */
  lemma {:induction false} DefaultIndexCounts(c: Config, r: nat)
    requires c.first <= r
    ensures DefaultIndex(c, r) == |LoadedBelow(c, r)| + 1
  {
    hide Unmanaged;
    if r == c.first {
      assert LoadedBelow(c, r) == {};
    } else {
      DefaultIndexCounts(c, r - 1);
      if Unmanaged(c, r - 1) {
        assert LoadedBelow(c, r) == LoadedBelow(c, r - 1);
      } else {
        assert LoadedBelow(c, r) == LoadedBelow(c, r - 1) + {r - 1};
      }
    }
  }

  // ---- The stages of a load -----------------------------------------------------------------

  lemma ClearKeepsTable(s: State, bits: Bitmap)
    ensures SetClear(s, bits, false).table == s.table
  {
  }

  lemma BeginLoadEffect(s: State)
    requires Layout(s.cfg)
    ensures var b := BeginLoad(s);
      && SameStore(s, b) && b.table == s.table
      && OptimalDefaultsEnabled !in b.status && ForceNoChecksum in b.status
      && (Restricted(b) <==> Restricted(s) && FirstBootDetected !in s.status)
      && (forall f :: f in {IsUsable, RecoverOnlyChecksummed, ErrorLoadingDefaults} ==>
            (f in b.status <==> f in s.status))
  {
    hide SetClear, Layout, IsStatusRegister, Undisturbed, BlockSumKept, HobInStep;
    var s1 := SetClear(s, {OptimalDefaultsEnabled}, false);
    var s2 := SetClear(s1, {ForceNoChecksum}, true);
    PlainSetClear(s, {OptimalDefaultsEnabled}, false);
    PlainSetClear(s1, {ForceNoChecksum}, true);
    if FirstBootDetected in s2.status {
      SetClearEffect(s2, {BadChecksum}, false);
      ClearKeepsTable(s2, {BadChecksum});
      forall f: Flag | f != AddressIsChecksummed
        ensures f in SetClear(s2, {BadChecksum}, false).status <==> f in s2.status && f != BadChecksum
      {
        BitAfterSetClear(s2, {BadChecksum}, false, f);
      }
    }
  }

  predicate Housekeeping(c: Config, a: nat) {
    IsStatusRegister(c, a) || IsChecksumRegister(c, a) || a == DIAGNOSTIC_REGISTER
  }

  /** Nothing but the checksum, the status and the diagnostic registers changed
      in physical CMOS. */
  ghost predicate SameCells(s: State, s': State) {
    && SameShape(s, s')
    && forall a: nat :: a < |s.cells| && !Housekeeping(s.cfg, a) ==> s'.cells[a] == s.cells[a]
  }

  lemma StoreChecksumCells(s: State, w: word)
    ensures SameCells(s, StoreChecksum(s, w))
  {
    hide NotChecksummed;
  }

  /** The comparison that CalculateChecksum makes decides coherence. */
  lemma ComparisonDecides(s: State)
    requires RangeLayout(s.cfg)
    ensures StoredChecksum(s) != Sum(s) % 0x1_0000 <==> !Coherent(s)
  {
    hide Sum, StoredChecksum;
    SumFits(s);
  }

  lemma RecalculateEffect(s: State)
    requires Steady(s)
    ensures var s' := Recalculate(s);
      && Undisturbed(s, s') && SameStore(s, s') && HobInStep(s')
      && Sum(s') == Sum(s) && StoredChecksum(s') == StoredChecksum(s)
      && (BadChecksum in s'.status <==> !Coherent(s))
      && (forall f :: f !in {BadChecksum, AddressIsChecksummed} ==> (f in s'.status <==> f in s.status))
  {
    hide SetClear, View, Summed, StatusLayout, ChecksumLayout;
    var on := StoredChecksum(s) != Sum(s) % 0x1_0000;
    SumFits(s);
    SetClearEffect(s, {BadChecksum}, on);
    forall f: Flag | f != AddressIsChecksummed
      ensures f in Recalculate(s).status <==> if f == BadChecksum then on else f in s.status
    {
      BitAfterSetClear(s, {BadChecksum}, on, f);
    }
    hide RangeLayout;
    SameStoreUndisturbed(s, Recalculate(s));
    UndisturbedKeepsChecksum(s, Recalculate(s));
  }

  lemma FinishLoadEffect(s: State)
    requires Steady(s)
    ensures var s' := FinishLoad(s);
      && Coherent(s') && SameCells(s, s') && SameRouting(s, s') && Fits(s')
      && ForceNoChecksum !in s'.status && BadChecksum !in s'.status
      && (ErrorLoadingDefaults in s'.status <==> ErrorLoadingDefaults in s.status)
  {
    hide SetClear, Recalculate, StoreChecksum, Sum, View, Summed, RangeLayout, StatusLayout, ChecksumLayout;
    var w: word := Sum(s) % 0x1_0000;
    var s1 := Recalculate(s);
    var s2 := StoreChecksum(s1, w);
    RecalculateEffect(s);
    StoreChecksumCells(s1, w);
    StoringTheSumIsCoherent(s1);
    StoreChecksumEffect(s1, w);
    SetClearEffect(s2, {BadChecksum}, false);
    forall f: Flag | f != AddressIsChecksummed
      ensures f in FinishLoad(s).status <==> f in s2.status && f != BadChecksum
    {
      BitAfterSetClear(s2, {BadChecksum}, false, f);
    }
    SameStoreUndisturbed(s2, FinishLoad(s));
    UndisturbedKeepsChecksum(s2, FinishLoad(s));
  }

  lemma EndLoadEffect(s: State, saved: Bitmap)
    requires Layout(s.cfg)
    ensures var s' := EndLoad(s, saved);
      && SameStore(s, s') && HobInStep(s') && s'.checksum == s.checksum
      && (forall f :: f !in saved && f !in {ForceNoChecksum, DefaultsLoaded, AddressIsChecksummed} ==>
            (f in s'.status <==> f in s.status))
      && (forall f :: f in saved && f !in {ForceNoChecksum, DefaultsLoaded, AddressIsChecksummed} ==>
            f in s'.status)
      && ForceNoChecksum !in s'.status && DefaultsLoaded in s'.status
  {
    hide SetClear, Layout, IsStatusRegister, Undisturbed;
    var s1 := s.(status := s.status + saved);
    var s2 := SetClear(s1, {ForceNoChecksum}, false);
    PlainSetClear(s1, {ForceNoChecksum}, false);
    SetClearEffect(s2, {DefaultsLoaded}, true);
    forall f: Flag | f != AddressIsChecksummed
      ensures f in EndLoad(s, saved).status <==> f in s2.status || f == DefaultsLoaded
    {
      BitAfterSetClear(s2, {DefaultsLoaded}, true, f);
    }
  }

  // ---- What a load achieves -------------------------------------------------------------------

  /** Load, then stop using the buffer: how DXE flushes it. */
  function Flush(s: State): State { BufferOff(Load(s).1) }

  lemma BufferOffEffect(s: State)
    ensures BufferOff(s) == Flip(s, {OptimalDefaultsEnabled}, false)
  {
    PlainSetClear(s, {OptimalDefaultsEnabled}, false);
  }

  /** The state between the write loop and the restored routing. */
  function AfterLoop(s: State): State {
    var b := BeginLoad(s);
    b.(cells := LoadedCells(b, s.cfg.last + 1))
  }

  lemma AfterLoopShape(s: State)
    requires Steady(s)
    ensures SameShape(s, AfterLoop(s)) && Steady(AfterLoop(s))
    ensures AfterLoop(s).status == BeginLoad(s).status
    ensures OptimalDefaultsEnabled !in AfterLoop(s).status
    ensures forall f :: f in {IsUsable, RecoverOnlyChecksummed, ErrorLoadingDefaults} ==>
      (f in AfterLoop(s).status <==> f in s.status)
  {
    hide BeginLoad, Layout;
    BeginLoadEffect(s);
  }

  /** Loading never raises the error bit, and fails only if a caller had raised it:
      with the buffer off every write of the loop succeeds. */
  lemma LoadSucceeds(s: State)
    requires Steady(s)
    ensures Load(s).0 == Success <==> ErrorLoadingDefaults !in s.status
    ensures ErrorLoadingDefaults in Load(s).1.status <==> ErrorLoadingDefaults in s.status
  {
    hide EndLoad, FinishLoad, BeginLoad, Layout, LoadedCells;
    AfterLoopShape(s);
    var saved := s.status * {OptimalDefaultsEnabled};
    var s2 := AfterLoop(s);
    FinishLoadEffect(s2);
    EndLoadEffect(if ErrorLoadingDefaults in s2.status then s2 else FinishLoad(s2), saved);
  }

  lemma LoadStatus(s: State)
    requires Steady(s) && ErrorLoadingDefaults !in s.status
    ensures var s' := Load(s).1;
      && SameShape(s, s') && SameRouting(s, s') && Steady(s') && HobInStep(s')
      && ForceNoChecksum !in s'.status && BadChecksum !in s'.status && DefaultsLoaded in s'.status
      && s' == EndLoad(FinishLoad(AfterLoop(s)), s.status * {OptimalDefaultsEnabled})
      && SameStore(FinishLoad(AfterLoop(s)), s')
  {
    hide EndLoad, FinishLoad, BeginLoad, Layout, LoadedCells, IsStatusRegister;
    AfterLoopShape(s);
    FinishLoadEffect(AfterLoop(s));
    EndLoadEffect(FinishLoad(AfterLoop(s)), s.status * {OptimalDefaultsEnabled});
    var s' := Load(s).1;
    forall f | f in ROUTING ensures f in s'.status <==> f in s.status {
      assert f in AfterLoop(s).status * ROUTING <==> f in FinishLoad(AfterLoop(s)).status * ROUTING;
    }
    SteadinessKept(s, s');
  }

  /** Whatever CMOS held, physical CMOS is coherent once the buffer is off; without
      the buffer the load itself ends coherent. */
  lemma LoadIsCoherent(s: State)
    requires Steady(s) && ErrorLoadingDefaults !in s.status
    ensures Coherent(Flush(s)) && OptimalDefaultsEnabled !in Flush(s).status
    ensures OptimalDefaultsEnabled !in s.status ==> Coherent(Load(s).1)
  {
    hide EndLoad, FinishLoad, BeginLoad, Load, Layout, LoadedCells, IsStatusRegister, View, Sum;
    var p := FinishLoad(AfterLoop(s));
    AfterLoopShape(s);
    FinishLoadEffect(AfterLoop(s));
    LoadStatus(s);
    BufferOffEffect(Load(s).1);
    assert OptimalDefaultsEnabled !in p.status by {
      assert OptimalDefaultsEnabled in p.status <==> OptimalDefaultsEnabled in p.status * ROUTING;
      assert OptimalDefaultsEnabled in AfterLoop(s).status <==> OptimalDefaultsEnabled in AfterLoop(s).status * ROUTING;
    }
    forall f | f in ROUTING && f != OptimalDefaultsEnabled
      ensures f in Load(s).1.status <==> f in p.status
    {
      assert f in Load(s).1.status * ROUTING <==> f in s.status * ROUTING;
      assert f in p.status * ROUTING <==> f in AfterLoop(s).status * ROUTING;
    }
    SameStoreUndisturbed(p, Flush(s));
    UndisturbedKeepsChecksum(p, Flush(s));
    if OptimalDefaultsEnabled !in s.status {
      assert OptimalDefaultsEnabled in Load(s).1.status <==> OptimalDefaultsEnabled in Load(s).1.status * ROUTING;
      assert OptimalDefaultsEnabled in s.status <==> OptimalDefaultsEnabled in s.status * ROUTING;
      SameStoreUndisturbed(p, Load(s).1);
      UndisturbedKeepsChecksum(p, Load(s).1);
    }
  }

  /** What every register holds after a load, even one that reports an error: its
      default where the loader writes it, and what it held before elsewhere. */
  lemma LoadedRegister(s: State, r: nat)
    requires Steady(s) && r < |s.cells| && !Housekeeping(s.cfg, r)
    ensures Cmos(Load(s).1, r) == if Loads(BeginLoad(s), r) then DefaultFor(s, r) else Cmos(s, r)
  {
    hide EndLoad, FinishLoad, BeginLoad, Layout, IsStatusRegister, Restricted, View, Coherent, Loads, DefaultIndex;
    var saved := s.status * {OptimalDefaultsEnabled};
    BeginLoadEffect(s);
    AfterLoopShape(s);
    FinishLoadEffect(AfterLoop(s));
    EndLoadEffect(AfterLoop(s), saved);
    EndLoadEffect(FinishLoad(AfterLoop(s)), saved);
    LoopRegister(s, r);
  }

  lemma LoopRegister(s: State, r: nat)
    requires Steady(s) && r < |s.cells| && !Housekeeping(s.cfg, r)
    ensures Cmos(AfterLoop(s), r) == if Loads(BeginLoad(s), r) then DefaultFor(s, r) else Cmos(s, r)
  {
    hide BeginLoad, Layout, IsStatusRegister, Restricted, NotChecksummed, Unmanaged;
    BeginLoadEffect(s);
  }

  /** The manager's own copy of the checksum is not refreshed by a load, and a load
      that reports an error stores no checksum. */
  lemma LoadLeavesChecksumField(s: State)
    requires Steady(s)
    ensures Load(s).1.checksum == s.checksum
    ensures ErrorLoadingDefaults in s.status ==>
      forall a: nat :: IsChecksumRegister(s.cfg, a) ==> Cmos(Load(s).1, a) == Cmos(AfterLoop(s), a)
  {
    hide EndLoad, BeginLoad, FinishLoad, Layout, LoadedCells, IsStatusRegister, Unmanaged, NotChecksummed;
    var saved := s.status * {OptimalDefaultsEnabled};
    AfterLoopShape(s);
    BeginLoadField(s);
    FinishLoadField(AfterLoop(s));
    FinishLoadEffect(AfterLoop(s));
    EndLoadEffect(AfterLoop(s), saved);
    EndLoadEffect(FinishLoad(AfterLoop(s)), saved);
    forall a: nat | IsChecksumRegister(s.cfg, a) && a < |s.cells|
      ensures !IsStatusRegister(s.cfg, a) && a != DIAGNOSTIC_REGISTER
    {
      ProtectedIsNotStatus(s.cfg, a);
    }
  }

  lemma BeginLoadField(s: State)
    requires Layout(s.cfg)
    ensures BeginLoad(s).checksum == s.checksum
  {
    hide SetClear, Layout;
    var s1 := SetClear(s, {OptimalDefaultsEnabled}, false);
    PlainSetClear(s, {OptimalDefaultsEnabled}, false);
    PlainSetClear(s1, {ForceNoChecksum}, true);
    SetClearEffect(SetClear(s1, {ForceNoChecksum}, true), {BadChecksum}, false);
  }

  lemma FinishLoadField(s: State)
    requires Layout(s.cfg)
    ensures FinishLoad(s).checksum == s.checksum
  {
    hide SetClear, Layout, Sum, StoredChecksum, Reach;
    var bad := StoredChecksum(s) != Sum(s) % 0x1_0000;
    var s1 := SetClear(s, {BadChecksum}, bad);
    SetClearEffect(s, {BadChecksum}, bad);
    SetClearEffect(StoreChecksum(s1, Sum(s) % 0x1_0000), {BadChecksum}, false);
  }

  /** Recovery limited to checksummed registers leaves every other register alone. */
  lemma RestrictedLoadFrame(s: State, r: nat)
    requires Steady(s) && ErrorLoadingDefaults !in s.status
    requires Restricted(s) && FirstBootDetected !in s.status
    requires r < |s.cells| && NotChecksummed(s.cfg, r) && !Housekeeping(s.cfg, r)
    ensures Cmos(Load(s).1, r) == Cmos(s, r)
    ensures Coherent(Flush(s))
  {
    hide BeginLoad, Load, Layout, IsStatusRegister, View, Coherent, Flush, NotChecksummed, Unmanaged;
    BeginLoadEffect(s);
    LoadedRegister(s, r);
    LoadIsCoherent(s);
  }

  /** The bits that a load changes. */
  const LOAD_BITS: Bitmap :=
    {OptimalDefaultsEnabled, ForceNoChecksum, BadChecksum, DefaultsLoaded, AddressIsChecksummed}

  lemma BeginLoadLeavesBit(s: State, f: Flag)
    requires Layout(s.cfg) && f !in LOAD_BITS
    ensures f in BeginLoad(s).status <==> f in s.status
  {
    hide SetClear, Layout;
    var s1 := SetClear(s, {OptimalDefaultsEnabled}, false);
    var s2 := SetClear(s1, {ForceNoChecksum}, true);
    BitAfterSetClear(s, {OptimalDefaultsEnabled}, false, f);
    BitAfterSetClear(s1, {ForceNoChecksum}, true, f);
    BitAfterSetClear(s2, {BadChecksum}, false, f);
  }

  lemma FinishLoadLeavesBit(s: State, f: Flag)
    requires Layout(s.cfg) && f !in LOAD_BITS
    ensures f in FinishLoad(s).status <==> f in s.status
  {
    hide SetClear, StoreChecksum, Layout, Sum, StoredChecksum;
    var bad := StoredChecksum(s) != Sum(s) % 0x1_0000;
    var w: word := Sum(s) % 0x1_0000;
    var s1 := SetClear(s, {BadChecksum}, bad);
    BitAfterSetClear(s, {BadChecksum}, bad, f);
    StoreChecksumShape(s1, w);
    BitAfterSetClear(StoreChecksum(s1, w), {BadChecksum}, false, f);
  }

  /** A load leaves every other bit as it was. */
  lemma LoadLeavesBit(s: State, f: Flag)
    requires Steady(s) && f !in LOAD_BITS
    ensures f in Load(s).1.status <==> f in s.status
  {
    hide EndLoad, FinishLoad, BeginLoad, Layout, LoadedCells;
    BeginLoadLeavesBit(s, f);
    AfterLoopShape(s);
    FinishLoadLeavesBit(AfterLoop(s), f);
    FinishLoadEffect(AfterLoop(s));
    EndLoadEffect(if ErrorLoadingDefaults in AfterLoop(s).status then AfterLoop(s) else FinishLoad(AfterLoop(s)),
                  s.status * {OptimalDefaultsEnabled});
  }

  // ---- The default table ------------------------------------------------------------------------

  lemma StoreChecksumKeepsTable(s: State, w: word)
    requires OptimalDefaultsEnabled !in s.status
    ensures StoreChecksum(s, w).table == s.table
  {
  }

  /** With the buffer off for the whole load, its own writes never reach the table. */
  lemma FinishLoadKeepsTable(s: State)
    requires Steady(s) && OptimalDefaultsEnabled !in s.status
    ensures FinishLoad(s).table == s.table
  {
    hide SetClear, StoreChecksum, Sum, StoredChecksum, Layout;
    var bad := StoredChecksum(s) != Sum(s) % 0x1_0000;
    var w: word := Sum(s) % 0x1_0000;
    var s1 := SetClear(s, {BadChecksum}, bad);
    SetClearKeepsTable(s, {BadChecksum}, bad);
    BitAfterSetClear(s, {BadChecksum}, bad, OptimalDefaultsEnabled);
    StoreChecksumKeepsTable(s1, w);
    ClearKeepsTable(StoreChecksum(s1, w), {BadChecksum});
  }

  /** A load leaves the default table alone, except that in buffer mode the status
      registers kept there may record it. */
  lemma LoadKeepsTable(s: State)
    requires Steady(s) && ErrorLoadingDefaults !in s.status
    ensures var p := FinishLoad(AfterLoop(s));
      p.table == s.table && SameStore(p, Load(s).1)
    ensures OptimalDefaultsEnabled !in s.status ==> Load(s).1.table == s.table
  {
    hide SetClear, FinishLoad, BeginLoad, Load, Layout, LoadedCells, SameStore;
    var p := FinishLoad(AfterLoop(s));
    AfterLoopShape(s);
    BeginLoadEffect(s);
    FinishLoadEffect(AfterLoop(s));
    FinishLoadKeepsTable(AfterLoop(s));
    LoadStatus(s);
    if OptimalDefaultsEnabled !in s.status {
      assert OptimalDefaultsEnabled in p.status <==> OptimalDefaultsEnabled in p.status * ROUTING;
      assert OptimalDefaultsEnabled in AfterLoop(s).status <==> OptimalDefaultsEnabled in AfterLoop(s).status * ROUTING;
      var s1 := p.(status := p.status + s.status * {OptimalDefaultsEnabled});
      PlainSetClear(s1, {ForceNoChecksum}, false);
      SetClearKeepsTable(SetClear(s1, {ForceNoChecksum}, false), {DefaultsLoaded}, true);
    }
  }

  // ---- Flushing the buffer ----------------------------------------------------------------------

  lemma SummedIsData(c: Config, r: nat)
    requires Layout(c) && Summed(c, r)
    ensures Managed(c, r) && !Housekeeping(c, r)
  {
    hide NotChecksummed, Unmanaged;
  }

  /** A protected register shows its buffer slot before a flush and the loader's
      entry after it. */
  lemma FlushedRegister(s: State, r: nat)
    requires Steady(s) && ErrorLoadingDefaults !in s.status
    requires OptimalDefaultsEnabled in s.status && Summed(s.cfg, r)
    ensures 0 <= DefaultIndex(s.cfg, r) < |s.table| && BufferIndex(s.cfg, r) < |s.table|
    ensures View(s, r) == s.table[BufferIndex(s.cfg, r)] && View(Flush(s), r) == DefaultFor(s, r)
  {
    hide BeginLoad, Load, Layout, Housekeeping, Coherent, NotChecksummed, Unmanaged, Restricted;
    SummedIsData(s.cfg, r);
    UnmanagedBelowBound(s.cfg, r);
    BeginLoadEffect(s);
    LoadedRegister(s, r);
    LoadStatus(s);
    BufferOffEffect(Load(s).1);
  }

  /** Where the slots agree, every protected token reads the same from the buffer
      before a flush and from physical CMOS after it. */
  lemma FlushedTokenReadsSame(s: State, t: Token, initial: byte)
    requires Steady(s) && ErrorLoadingDefaults !in s.status && OptimalDefaultsEnabled in s.status
    requires ProperField(t) && Summed(s.cfg, t.address)
    requires forall u: nat :: s.cfg.first <= u < t.address ==> !Unmanaged(s.cfg, u)
    ensures ReadField(Flush(s), t, initial) == ReadField(s, t, initial)
    ensures Coherent(Flush(s))
  {
    hide Layout, View, Load, BufferOff, Coherent, Unmanaged, Decode, Reach;
    SummedIsData(s.cfg, t.address);
    SlotsAgreeIff(s.cfg, t.address);
    FlushedRegister(s, t.address);
    LoadIsCoherent(s);
    FlushFits(s);
    ManagedRegisterExists(s, t.address);
    ManagedRegisterExists(Flush(s), t.address);
    ReadFieldIsView(s, t, initial);
    ReadFieldIsView(Flush(s), t, initial);
  }

  lemma FlushFits(s: State)
    requires Steady(s) && ErrorLoadingDefaults !in s.status
    ensures Fits(Flush(s)) && Flush(s).cfg == s.cfg
  {
    hide Load, Layout;
    LoadStatus(s);
    BufferOffEffect(Load(s).1);
  }

  /** The two checks that an entry point makes on a manager before it uses it. */
  predicate Proceeds(s: State) { ValidInterface in s.status && InterfaceAlreadyInstalled !in s.status }

  predicate Flushes(s: State) { Proceeds(s) && {IsUsable, OptimalDefaultsEnabled} <= s.status }

  /** A state that DXE flushes: the manager passes the entry checks, the buffer is on
      and coherent, and CMOS is usable. */
  ghost predicate FlushPossible(s: State, c: Config) {
    && s.cfg == c && Steady(s) && Coherent(s) && Flushes(s)
    && ErrorLoadingDefaults !in s.status && ForceNoChecksum !in s.status
  }

  /** The loader takes the low checksum byte of the buffer for `r`, and that byte is
      always the value of `r`, the only protected register. */
  ghost predicate ShowsOwnSum(c: Config, r: nat)
    requires c.first <= c.checksumLow.address
  {
    && DefaultIndex(c, r) == BufferIndex(c, c.checksumLow.address)
    && !NotChecksummed(c, c.checksumLow.address)
    && forall r' :: Summed(c, r') ==> r' == r
  }

  /** Flushing a coherent buffer is invisible at a protected register, whatever the
      buffer holds, exactly when no unmanaged register lies below it or the entry that
      the loader takes instead happens to be the register's own checksum. */
  lemma FlushTransparentIff(c: Config, r: nat)
    requires Layout(c) && Summed(c, r)
    ensures (forall s :: FlushPossible(s, c) ==> View(Flush(s), r) == View(s, r))
       <==> (forall u: nat :: c.first <= u < r ==> !Unmanaged(c, u)) || ShowsOwnSum(c, r)
  {
    hide Layout, View, Flush, Summed, FlushPossible, Unmanaged, NotChecksummed;
    LayoutParts(c);
    SummedIsData(c, r);
    SlotsAgreeIff(c, r);
    if DefaultIndex(c, r) == BufferIndex(c, r) || ShowsOwnSum(c, r) {
      forall s | FlushPossible(s, c) ensures View(Flush(s), r) == View(s, r) {
        FlushPossibleMeaning(s, c);
        FlushedRegister(s, r);
        if ShowsOwnSum(c, r) { OwnSum(s, r); }
      }
    } else {
      var one := OtherValue(c, r);
      var s := Witness(c, one);
      WitnessIsFlushed(c, one);
      FlushPossibleMeaning(s, c);
      FlushedRegister(s, r);
    }
  }

  lemma FlushPossibleMeaning(s: State, c: Config)
    ensures FlushPossible(s, c) ==>
      s.cfg == c && Steady(s) && Coherent(s) && Flushes(s) && ErrorLoadingDefaults !in s.status
  {
  }

  /** A sum with at most one term. */
  lemma {:induction false} SingleSum(s: State, one: nat, n: nat)
    requires Summed(s.cfg, one)
    requires forall r: nat :: r < n && Summed(s.cfg, r) && r != one ==> View(s, r) == 0
    ensures SumBelow(s, n) == if one < n then View(s, one) else 0
  {
    hide View, Summed;
    if n > 0 { SingleSum(s, one, n - 1); }
  }

  lemma OwnSum(s: State, r: nat)
    requires Steady(s) && Coherent(s) && OptimalDefaultsEnabled in s.status && Summed(s.cfg, r)
    requires s.cfg.first <= s.cfg.checksumLow.address && ShowsOwnSum(s.cfg, r)
    ensures DefaultFor(s, r) == View(s, r)
  {
    hide NotChecksummed, Unmanaged, StatusLayout;
    SingleSum(s, r, s.cfg.last + 1);
    assert View(s, s.cfg.checksumLow.address) == DefaultFor(s, r);
  }

  /** A protected register whose value 1 makes the buffer's slot for `r` and the
      loader's entry for it differ. */
  ghost function OtherValue(c: Config, r: nat): (one: nat)
    requires Summed(c, r) && c.first <= c.checksumLow.address && !ShowsOwnSum(c, r)
    ensures Summed(c, one)
    ensures one != r <==>
      DefaultIndex(c, r) == BufferIndex(c, c.checksumLow.address) && !NotChecksummed(c, c.checksumLow.address)
  {
    if DefaultIndex(c, r) == BufferIndex(c, c.checksumLow.address) && !NotChecksummed(c, c.checksumLow.address) then
      var r': nat :| Summed(c, r') && r' != r; r'
    else r
  }

  /** A buffer in which register `one` is 1, its checksum is right and all else is 0;
      the checksum registers that the no-checksum table lists are physical. */
  ghost function Witness(c: Config, one: nat): (s: State)
    requires Layout(c) && Summed(c, one)
    ensures s.cfg == c && |s.table| == 257
    ensures forall i :: 0 <= i < 257 ==>
      s.table[i] == if i == BufferIndex(c, one) || WitnessSum(c, i) then 1 else 0
  {
    State(c, {ValidInterface, IsUsable, OptimalDefaultsEnabled, RecoverOnlyChecksummed},
          seq(256, a => if a == c.checksumLow.address then 1 else 0),
          seq(257, i => if i == BufferIndex(c, one) || WitnessSum(c, i) then 1 else 0), None, 0, true)
  }

  predicate WitnessSum(c: Config, i: int)
    requires c.first <= c.checksumLow.address
  {
    i == BufferIndex(c, c.checksumLow.address) && !NotChecksummed(c, c.checksumLow.address)
  }

  lemma WitnessIsFlushed(c: Config, one: nat)
    requires Layout(c) && Summed(c, one)
    ensures FlushPossible(Witness(c, one), c)
  {
    hide NotChecksummed, Unmanaged, StatusLayout;
    SingleSum(Witness(c, one), one, c.last + 1);
  }
}
