/** The 32-bit interface pointer kept in four CMOS registers. */
module ApiPointer {
  import opened CmosTypes
  import opened BitFields
  import opened CmosModel
  import opened Coherence
  import opened StatusUpdates

  type pointer = x: nat | x < 0x1_0000_0000

  /** Byte `k` of a pointer, most significant first. */
  function ApiByte(p: pointer, k: nat): byte
    requires k < 4
  {
    match k
    case 0 => p / 0x100_0000 % 256
    case 1 => p / 0x1_0000 % 256
    case 2 => p / 0x100 % 256
    case 3 => p % 256
  }

  function SaveByte(s: State, p: pointer, k: nat): (s': State)
    requires k < 4
    ensures s'.cfg == s.cfg
  {
    WriteCell(s, API_BYTE3 + k, Physical(API_BYTE3 + k), ALL_BITS, ApiByte(p, k))
  }

  function SaveFrom(s: State, p: pointer, k: nat): (s': State)
    requires k <= 4
    ensures s'.cfg == s.cfg
    decreases 4 - k
  {
    if k == 4 then s else SaveFrom(SaveByte(s, p, k), p, k + 1)
  }

  /** SaveApiPointerToCmos. */
  function SaveApi(s: State, p: pointer): (EfiStatus, State) {
    if IsUsable in s.status then (Success, SaveFrom(s, p, 0)) else (DeviceError, s)
  }

  /** The bytes read so far, shifted together. */
  function GetUpTo(s: State, k: nat): pointer
    requires k <= 4
  {
    if k == 0 then 0 else (GetUpTo(s, k - 1) * 256 + Cmos(s, API_BYTE3 + k - 1)) % 0x1_0000_0000
  }

  // ---- The save ---------------------------------------------------------------------------

  /** Nothing moved except API registers and the address-is-checksummed bit. */
  ghost predicate ApiOnly(s: State, s': State) {
    && Undisturbed(s, s') && (HobInStep(s) ==> HobInStep(s'))
    && s'.status - {AddressIsChecksummed} == s.status - {AddressIsChecksummed} && s'.table == s.table
    && s'.checksum == s.checksum && BlockSumKept(s, s')
  }

  lemma SaveByteEffect(s: State, p: pointer, k: nat)
    requires k < 4 && ApiLayout(s.cfg) && API_BYTE3 + 4 <= |s.cells|
    ensures var s' := SaveByte(s, p, k);
      && ApiOnly(s, s')
      && forall a: nat :: Cmos(s', a) == if a == API_BYTE3 + k then ApiByte(p, k) else Cmos(s, a)
  {
    hide ApiByte, Merge;
    var a := API_BYTE3 + k;
    MergeAllBits(Cmos(s, a), ApiByte(p, k));
    assert Excluded(s.cfg, a) && !IsChecksumRegister(s.cfg, a);
    ExcludedWriteUndisturbed(s, a, Physical(a), ApiByte(p, k));
    hide Undisturbed, NotChecksummed, Unmanaged;
  }

  lemma {:induction false} SaveFromEffect(s: State, p: pointer, k: nat)
    requires k <= 4 && ApiLayout(s.cfg) && API_BYTE3 + 4 <= |s.cells|
    ensures var s' := SaveFrom(s, p, k);
      && ApiOnly(s, s')
      && forall a: nat ::
           Cmos(s', a) == if API_BYTE3 + k <= a < API_BYTE3 + 4 then ApiByte(p, a - API_BYTE3) else Cmos(s, a)
    decreases 4 - k
  {
    hide SaveByte, Cmos, View, ApiByte, Summed, IsChecksumRegister, Excluded;
    if k < 4 {
      SaveByteEffect(s, p, k);
      SaveFromEffect(SaveByte(s, p, k), p, k + 1);
    }
  }

  /** Saving the pointer leaves the checksum and everything it protects alone. */
  lemma SaveApiKeepsChecksum(s: State, p: pointer)
    requires ApiLayout(s.cfg) && API_BYTE3 + 4 <= |s.cells|
    ensures SaveApi(s, p).0 == if IsUsable in s.status then Success else DeviceError
    ensures ApiOnly(s, SaveApi(s, p).1)
    ensures Coherent(SaveApi(s, p).1) <==> Coherent(s)
  {
    hide SaveFrom, View, Cmos;
    SaveFromEffect(s, p, 0);
    if IsUsable in s.status { UndisturbedKeepsChecksum(s, SaveFrom(s, p, 0)); }
  }

  lemma BytesMakePointer(p: pointer)
    ensures ((ApiByte(p, 0) * 256 + ApiByte(p, 1)) * 256 + ApiByte(p, 2)) * 256 + ApiByte(p, 3) == p
  {
    var high := p / 256 / 256;
    assert p / 0x1_0000 == high && p / 0x100_0000 == high / 256;
  }

  /** On usable CMOS, in any routing mode, the pointer read back is the one saved. */
  lemma ApiRoundTrip(s: State, p: pointer)
    requires ApiLayout(s.cfg) && API_BYTE3 + 4 <= |s.cells| && IsUsable in s.status
    ensures GetUpTo(SaveApi(s, p).1, 4) == p
  {
    hide SaveFrom, ApiByte, Cmos, Undisturbed;
    var s' := SaveFrom(s, p, 0);
    SaveFromEffect(s, p, 0);
    BytesMakePointer(p);
    assert GetUpTo(s', 1) == ApiByte(p, 0);
    assert GetUpTo(s', 2) == ApiByte(p, 0) * 256 + ApiByte(p, 1);
    assert GetUpTo(s', 3) == (ApiByte(p, 0) * 256 + ApiByte(p, 1)) * 256 + ApiByte(p, 2);
  }

  /** The pointer is read from registers 0x42 to 0x45, most significant byte first. */
  lemma FourBytes(s: State)
    ensures GetUpTo(s, 4)
         == ((Cmos(s, 0x42) * 256 + Cmos(s, 0x43)) * 256 + Cmos(s, 0x44)) * 256 + Cmos(s, 0x45)
  {
    hide Cmos;
    assert GetUpTo(s, 1) == Cmos(s, 0x42);
    assert GetUpTo(s, 2) == Cmos(s, 0x42) * 256 + Cmos(s, 0x43);
    assert GetUpTo(s, 3) == (Cmos(s, 0x42) * 256 + Cmos(s, 0x43)) * 256 + Cmos(s, 0x44);
  }

  /** Pointers are equal exactly when their four bytes are. */
  lemma SamePointer(s: State, s': State)
    ensures GetUpTo(s', 4) == GetUpTo(s, 4)
       <==> forall a :: IsApiRegister(a) ==> Cmos(s', a) == Cmos(s, a)
  {
    hide Cmos, GetUpTo;
    FourBytes(s);
    FourBytes(s');
    var q: nat, q': nat := Cmos(s, 0x42), Cmos(s', 0x42);
    LastByte(q, Cmos(s, 0x43), q', Cmos(s', 0x43));
    q, q' := q * 256 + Cmos(s, 0x43), q' * 256 + Cmos(s', 0x43);
    LastByte(q, Cmos(s, 0x44), q', Cmos(s', 0x44));
    q, q' := q * 256 + Cmos(s, 0x44), q' * 256 + Cmos(s', 0x44);
    LastByte(q, Cmos(s, 0x45), q', Cmos(s', 0x45));
    assert IsApiRegister(0x42) && IsApiRegister(0x43) && IsApiRegister(0x44) && IsApiRegister(0x45);
    assert forall a :: IsApiRegister(a) ==> a == 0x42 || a == 0x43 || a == 0x44 || a == 0x45;
  }

  lemma LastByte(q: nat, b: byte, q': nat, b': byte)
    ensures q * 256 + b == q' * 256 + b' <==> q == q' && b == b'
  {
  }
}
