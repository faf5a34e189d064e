/** What a status update does besides changing status bits. */
module StatusUpdates {
  import opened CmosTypes
  import opened BitFields
  import opened CmosModel
  import opened Coherence

  /** Apart from the status and the diagnostic registers, neither physical CMOS
      nor the buffer changed. */
  ghost predicate SameStore(s: State, s': State) {
    && SameShape(s, s')
    && (forall a: nat :: a < |s.cells| && !IsStatusRegister(s.cfg, a) && a != DIAGNOSTIC_REGISTER ==>
          s'.cells[a] == s.cells[a])
    && (forall a: nat :: Managed(s.cfg, a) && a - s.cfg.first + 1 < |s.table| && !IsStatusRegister(s.cfg, a) ==>
          s'.table[a - s.cfg.first + 1] == s.table[a - s.cfg.first + 1])
  }

  /** The hand-off block keeps its copy of the checksum. */
  predicate BlockSumKept(s: State, s': State) {
    && (s'.hob.Some? <==> s.hob.Some?)
    && (s.hob.Some? ==> s'.hob.value.checksum == s.hob.value.checksum)
  }

  predicate HobInStep(s: State) { s.hob.Some? ==> s.hob.value.status == s.status }

  function Assign(s: State, bits: Bitmap, on: bool): State {
    s.(status := if on then s.status + bits else s.status - bits)
  }

  /** Nothing that a client stored moved, and no status bit except possibly the
      address-is-checksummed bit. */
  ghost predicate Quiet(s: State, s': State) {
    && Undisturbed(s, s') && SameStore(s, s')
    && s'.status - {AddressIsChecksummed} == s.status - {AddressIsChecksummed}
    && (HobInStep(s) ==> HobInStep(s')) && s'.checksum == s.checksum && BlockSumKept(s, s')
  }

  lemma QuietTransitive(s: State, s': State, s'': State)
    requires Quiet(s, s') && Quiet(s', s'')
    ensures Quiet(s, s'')
  {
    hide View, Summed, IsStatusRegister;
  }

  // ---- Persisting one bit --------------------------------------------------------------

  lemma PersistIsQuiet(s: State, bits: Bitmap, flag: Flag, t: Token)
    requires GoodStatusToken(s.cfg, t) && IsStatusRegister(s.cfg, t.address)
    ensures Quiet(s, Persist(s, bits, flag, t))
  {
    hide Overflows, Merge, Encode, FieldMask;
    var c := Reach(s, t.address);
    if flag in bits && !Overflows(1, t) {
      var after := Merge(Peek(s, c, 0), FieldMask(t), Encode(1, t));
      assert Persist(s, bits, flag, t) == Replace(s, t.address, c, after);
      ExcludedWriteUndisturbed(s, t.address, c, after);
    }
  }

  lemma PersistAllIsQuiet(s: State, bits: Bitmap)
    requires StatusLayout(s.cfg)
    ensures Quiet(s, PersistAll(s, bits))
  {
    hide Persist, GoodStatusToken, View, Summed;
    var s1 := Persist(s, bits, BadBattery, s.cfg.batteryBad);
    var s2 := Persist(s1, bits, BadChecksum, s.cfg.checksumBad);
    var s3 := Persist(s2, bits, DefaultsLoaded, s.cfg.defaultsLoaded);
    var s4 := Persist(s3, bits, FirstBootDetected, s.cfg.firstBoot);
    PersistIsQuiet(s, bits, BadBattery, s.cfg.batteryBad);
    PersistIsQuiet(s1, bits, BadChecksum, s.cfg.checksumBad);
    PersistIsQuiet(s2, bits, DefaultsLoaded, s.cfg.defaultsLoaded);
    PersistIsQuiet(s3, bits, FirstBootDetected, s.cfg.firstBoot);
    QuietTransitive(s, s1, s2);
    QuietTransitive(s, s2, s3);
    QuietTransitive(s, s3, s4);
  }

  // ---- The whole update ------------------------------------------------------------------

  lemma SyncLegacyIsQuiet(s: State, bits: Bitmap, on: bool)
    requires RangeLayout(s.cfg) && ChecksumLayout(s.cfg)
    ensures Quiet(s, SyncLegacy(s, bits, on))
  {
    hide LegacyByte;
    var d := Physical(DIAGNOSTIC_REGISTER);
    PokeUndisturbed(s, DIAGNOSTIC_REGISTER, d, LegacyByte(Peek(s, d, 0), bits, on, s.dxe));
  }

  lemma SyncHobIsQuiet(s: State)
    ensures Quiet(s, SyncHob(s)) && HobInStep(SyncHob(s))
  {
  }

  /** A status update changes the requested bits, at most clears the
      address-is-checksummed bit besides, brings the hand-off block into step, and
      disturbs neither the checksum nor the data: what the view shows afterwards
      is what the new routing shows of the old store. */
  lemma SetClearEffect(s: State, bits: Bitmap, on: bool)
    requires Layout(s.cfg)
    ensures Undisturbed(Assign(s, bits, on), SetClear(s, bits, on))
    ensures SameStore(s, SetClear(s, bits, on))
    ensures SetClear(s, bits, on).status - {AddressIsChecksummed}
         == Assign(s, bits, on).status - {AddressIsChecksummed}
    ensures HobInStep(SetClear(s, bits, on)) && SetClear(s, bits, on).checksum == s.checksum
    ensures BlockSumKept(s, SetClear(s, bits, on))
  {
    hide PersistAll, SyncLegacy, SyncHob, View, Summed, IsStatusRegister;
    hide RangeLayout, ChecksumLayout, StatusLayout;
    var s1 := Assign(s, bits, on);
    var s2 := if on && IsUsable in s1.status then PersistAll(s1, bits) else s1;
    var s3 := SyncLegacy(s2, bits, on);
    if on { PersistAllIsQuiet(s1, bits); }
    SyncLegacyIsQuiet(s2, bits, on);
    SyncHobIsQuiet(s3);
    if s2 != s1 { QuietTransitive(s1, s2, s3); }
    QuietTransitive(s1, s3, SyncHob(s3));
  }

  /** Bits that are neither persisted nor mirrored just flip. */
  lemma PlainSetClear(s: State, bits: Bitmap, on: bool)
    requires bits !! PERSISTED
    ensures SetClear(s, bits, on) == Flip(s, bits, on)
  {
    hide WriteField;
    var s1 := Assign(s, bits, on);
    assert forall f :: f in PERSISTED ==> f !in bits;
    assert BadBattery in PERSISTED && BadChecksum in PERSISTED
        && DefaultsLoaded in PERSISTED && FirstBootDetected in PERSISTED;
    assert PersistAll(s1, bits) == s1;
    assert SyncLegacy(s1, bits, on) == s1;
  }

  lemma PersistKeepsTable(s: State, bits: Bitmap, flag: Flag, t: Token)
    requires OptimalDefaultsEnabled !in s.status && GoodStatusToken(s.cfg, t)
    ensures var s' := Persist(s, bits, flag, t);
      s'.table == s.table && OptimalDefaultsEnabled !in s'.status
  {
    hide Overflows, Merge, Encode, FieldMask, NotChecksummed, Managed, IsChecksumRegister;
  }

  /** Without the buffer a status update leaves the default table alone. */
  lemma SetClearKeepsTable(s: State, bits: Bitmap, on: bool)
    requires Layout(s.cfg) && OptimalDefaultsEnabled !in s.status && OptimalDefaultsEnabled !in bits
    ensures SetClear(s, bits, on).table == s.table
  {
    hide Persist, RangeLayout, ChecksumLayout, GoodStatusToken;
    var s0 := Assign(s, bits, on);
    var s1 := Persist(s0, bits, BadBattery, s.cfg.batteryBad);
    var s2 := Persist(s1, bits, BadChecksum, s.cfg.checksumBad);
    var s3 := Persist(s2, bits, DefaultsLoaded, s.cfg.defaultsLoaded);
    PersistKeepsTable(s0, bits, BadBattery, s.cfg.batteryBad);
    PersistKeepsTable(s1, bits, BadChecksum, s.cfg.checksumBad);
    PersistKeepsTable(s2, bits, DefaultsLoaded, s.cfg.defaultsLoaded);
    PersistKeepsTable(s3, bits, FirstBootDetected, s.cfg.firstBoot);
  }

  /** Status registers are neither protected nor part of the checksum, so a store
      that differs only there looks the same under equal routing. */
  lemma SameStoreUndisturbed(s: State, s': State)
    requires Steady(s) && SameStore(s, s') && SameRouting(s, s')
    ensures Undisturbed(s, s')
  {
    forall r | Summed(s.cfg, r) || IsChecksumRegister(s.cfg, r) ensures View(s', r) == View(s, r) {
      RoutingDecidesReach(s, s', r);
      ManagedRegisterExists(s, r);
      ProtectedIsNotStatus(s.cfg, r);
      hide NotChecksummed, Unmanaged, IsStatusRegister, Layout;
    }
  }

  lemma ProtectedIsNotStatus(c: Config, r: nat)
    requires Layout(c) && (Summed(c, r) || IsChecksumRegister(c, r))
    ensures Managed(c, r) && !IsStatusRegister(c, r) && r != DIAGNOSTIC_REGISTER
  {
    hide NotChecksummed, Unmanaged;
  }

  // ---- Memory of a bit that nobody else writes ---------------------------------------------

  /** The status bits after an update, as a caller sees them. */
  lemma BitAfterSetClear(s: State, bits: Bitmap, on: bool, f: Flag)
    requires Layout(s.cfg)
    requires f != AddressIsChecksummed
    ensures f in SetClear(s, bits, on).status
       <==> if on then f in s.status || f in bits else f in s.status && f !in bits
  {
    hide SetClear, Layout;
    SetClearEffect(s, bits, on);
    var s', s1 := SetClear(s, bits, on), Assign(s, bits, on);
    assert f in s'.status <==> f in s'.status - {AddressIsChecksummed};
    assert f in s1.status <==> f in s1.status - {AddressIsChecksummed};
  }
}
