/** The legacy diagnostic byte, register 0xe, over runs of status updates. */
module LegacyStatus {
  import opened CmosTypes
  import opened BitFields
  import opened CmosModel
  import opened Coherence
  import opened StatusUpdates

  const CHECKSUM_IS_BAD: Bits := 0x40
  const RTC_POWER_IS_BAD: Bits := 0x80

  function Diagnostic(s: State): byte { Cmos(s, 0xe) }

  predicate HasBit(b: byte, m: Bits) { ToBits(b) & m != 0 }

  /** The bit that mirrors a status flag. */
  function MirrorOf(f: Flag): Bits
    requires f in {BadChecksum, BadBattery}
  {
    if f == BadChecksum then CHECKSUM_IS_BAD else RTC_POWER_IS_BAD
  }

  lemma BitsOfUpdate(b: Bits)
    ensures (b | 0x40) & 0x40 != 0 && (b & !0x40) & 0x40 == 0
    ensures (b | 0x80) & 0x80 != 0 && (b & !0x80) & 0x80 == 0
    ensures (b | 0x40) & 0x80 == b & 0x80 && (b & !0x40) & 0x80 == b & 0x80
    ensures (b | 0x80) & 0x40 == b & 0x40 && (b & !0x80) & 0x40 == b & 0x40
    ensures (b | 0x40) & 0x3f == b & 0x3f && (b & !0x40) & 0x3f == b & 0x3f
    ensures (b | 0x80) & 0x3f == b & 0x3f && (b & !0x80) & 0x3f == b & 0x3f
  {
  }

  lemma SetClearBits(b: byte, m: Bits)
    ensures ToBits(SetBits(b, m)) == ToBits(b) | m && ToBits(ClearBits(b, m)) == ToBits(b) & !m
  {
    hide Number;
    NumberToBits(ToBits(b) | m);
    NumberToBits(ToBits(b) & !m);
  }

  /** One update: a touched bit is raised, lowered in DXE only, and nothing else moves. */
  lemma LegacyByteEffect(b: byte, bits: Bitmap, on: bool, dxe: bool)
    ensures var b' := LegacyByte(b, bits, on, dxe);
      && (HasBit(b', 0x40) <==> if BadChecksum in bits then on || (!dxe && HasBit(b, 0x40)) else HasBit(b, 0x40))
      && (HasBit(b', 0x80) <==> if BadBattery in bits then on || (!dxe && HasBit(b, 0x80)) else HasBit(b, 0x80))
      && Masked(b', 0x3f) == Masked(b, 0x3f)
  {
    hide Number, SetBits, ClearBits;
    var b1 := LegacyByte(b, bits - {BadBattery}, on, dxe);
    SetClearBits(b, 0x40);
    SetClearBits(b1, 0x80);
    BitsOfUpdate(ToBits(b));
    BitsOfUpdate(ToBits(b1));
  }

  // ---- Status updates ------------------------------------------------------------------------

  lemma PersistKeepsDiagnostic(s: State, bits: Bitmap, flag: Flag, t: Token)
    requires RangeLayout(s.cfg) && GoodStatusToken(s.cfg, t)
    ensures Diagnostic(Persist(s, bits, flag, t)) == Diagnostic(s)
  {
    hide Overflows, Merge, Encode, FieldMask;
  }

  lemma SetClearDiagnostic(s: State, bits: Bitmap, on: bool)
    requires Layout(s.cfg) && DIAGNOSTIC_REGISTER < |s.cells|
    ensures Diagnostic(SetClear(s, bits, on)) == LegacyByte(Diagnostic(s), bits, on, s.dxe)
  {
    hide LegacyByte, Persist, GoodStatusToken, RangeLayout, ChecksumLayout;
    var s0 := Assign(s, bits, on);
    var s1 := Persist(s0, bits, BadBattery, s.cfg.batteryBad);
    var s2 := Persist(s1, bits, BadChecksum, s.cfg.checksumBad);
    var s3 := Persist(s2, bits, DefaultsLoaded, s.cfg.defaultsLoaded);
    PersistKeepsDiagnostic(s0, bits, BadBattery, s.cfg.batteryBad);
    PersistKeepsDiagnostic(s1, bits, BadChecksum, s.cfg.checksumBad);
    PersistKeepsDiagnostic(s2, bits, DefaultsLoaded, s.cfg.defaultsLoaded);
    PersistKeepsDiagnostic(s3, bits, FirstBootDetected, s.cfg.firstBoot);
    PersistAllIsQuiet(s0, bits);
    hide Undisturbed, SameStore;
  }

  datatype Update = Update(bits: Bitmap, on: bool)

  function Updates(s: State, us: seq<Update>): State
    decreases |us|
  {
    if us == [] then s else Updates(SetClear(s, us[0].bits, us[0].on), us[1..])
  }

  predicate Raised(us: seq<Update>, f: Flag) { exists i :: 0 <= i < |us| && f in us[i].bits && us[i].on }

  predicate Touched(us: seq<Update>, f: Flag) { exists i :: 0 <= i < |us| && f in us[i].bits }

  lemma FirstUpdate(us: seq<Update>, f: Flag)
    requires us != []
    ensures Raised(us, f) <==> (f in us[0].bits && us[0].on) || Raised(us[1..], f)
    ensures Touched(us, f) <==> f in us[0].bits || Touched(us[1..], f)
  {
    assert us == [us[0]] + us[1..];
    if i :| 0 <= i < |us| && f in us[i].bits && us[i].on && i > 0 { assert us[1..][i - 1] == us[i]; }
    if i :| 0 <= i < |us| && f in us[i].bits && i > 0 { assert us[1..][i - 1] == us[i]; }
  }

  lemma OneUpdate(s: State, u: Update)
    requires Layout(s.cfg) && DIAGNOSTIC_REGISTER < |s.cells|
    ensures var s' := SetClear(s, u.bits, u.on);
      && SameShape(s, s') && Layout(s'.cfg)
      && Masked(Diagnostic(s'), 0x3f) == Masked(Diagnostic(s), 0x3f)
      && forall f :: f in {BadChecksum, BadBattery} ==>
           && (f in s'.status <==> if f in u.bits then u.on else f in s.status)
           && (HasBit(Diagnostic(s'), MirrorOf(f)) <==>
                 if f in u.bits then u.on || (!s.dxe && HasBit(Diagnostic(s), MirrorOf(f)))
                 else HasBit(Diagnostic(s), MirrorOf(f)))
  {
    hide SetClear, Layout, LegacyByte, Diagnostic, HasBit, Masked, Undisturbed, SameStore;
    SetClearEffect(s, u.bits, u.on);
    BitAfterSetClear(s, u.bits, u.on, BadChecksum);
    BitAfterSetClear(s, u.bits, u.on, BadBattery);
    SetClearDiagnostic(s, u.bits, u.on);
    LegacyByteEffect(Diagnostic(s), u.bits, u.on, s.dxe);
    SameStoreShape(s, SetClear(s, u.bits, u.on));
  }

  lemma SameStoreShape(s: State, s': State)
    requires SameStore(s, s')
    ensures SameShape(s, s')
  {
  }

  /** Over any run of status updates: in PEI a mirrored bit is its first value or
      was raised since; in DXE it is its status bit as soon as it has been touched;
      the other six bits never move. */
  lemma {:induction false} DiagnosticOverRun(s: State, us: seq<Update>, f: Flag)
    requires Layout(s.cfg) && DIAGNOSTIC_REGISTER < |s.cells|
    requires f in {BadChecksum, BadBattery}
    ensures var s' := Updates(s, us);
      && Masked(Diagnostic(s'), 0x3f) == Masked(Diagnostic(s), 0x3f)
      && (!s.dxe ==> (HasBit(Diagnostic(s'), MirrorOf(f))
                      <==> HasBit(Diagnostic(s), MirrorOf(f)) || Raised(us, f)))
      && (s.dxe && Touched(us, f) ==> (HasBit(Diagnostic(s'), MirrorOf(f)) <==> f in s'.status))
      && (!Touched(us, f) ==> (f in s'.status <==> f in s.status)
                              && (HasBit(Diagnostic(s'), MirrorOf(f)) <==> HasBit(Diagnostic(s), MirrorOf(f))))
    decreases |us|
  {
    hide SetClear, Layout, Diagnostic, HasBit, Masked;
    if us != [] {
      var s1 := SetClear(s, us[0].bits, us[0].on);
      OneUpdate(s, us[0]);
      FirstUpdate(us, f);
      DiagnosticOverRun(s1, us[1..], f);
    }
  }
}
