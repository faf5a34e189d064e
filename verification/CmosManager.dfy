/** The manager as an object: the operations in the source's own order of steps,
    each proved to have the effect that the functions on states give it. */
module CmosManager {
  import opened CmosTypes
  import opened BitFields
  import opened Tables
  import opened CmosModel
  import opened Coherence
  import opened TokenLaws
  import opened StatusUpdates
  import opened Loader
  import opened ApiPointer
  import opened Clock
  import opened HandOff
  import opened Runs
  import opened Refinement

  /** The hand-off block.  Its tables are the ones the manager uses once it exists. */
  class Hob {
    var status: Bitmap
    var checksum: word
    const cfg: Config
    const table: array<byte>

    constructor (status: Bitmap, checksum: word, cfg: Config, table: array<byte>)
      ensures this.status == status && this.checksum == checksum && this.cfg == cfg && this.table == table
    {
      this.status, this.checksum, this.cfg, this.table := status, checksum, cfg, table;
    }
  }

  class Manager {
    var cfg: Config
    var status: Bitmap
    const cells: array<byte>
    var table: array<byte>
    var hob: Hob?
    var checksum: word
    const dxe: bool

    ghost function Model(): State
      reads this, cells, table, hob
    {
      State(cfg, status, cells[..], table[..],
            if hob == null then None else Some(HobState(hob.status, hob.checksum)), checksum, dxe)
    }

    ghost predicate Valid()
      reads this, cells, table, hob
    {
      && cells != table && Sound(Model())
      && (hob != null ==> hob.table == table && hob.cfg == cfg)
    }

    /** A manager whose interface has just been initialized over the given tables. */
    constructor (cfg: Config, cells: array<byte>, table: array<byte>, dxe: bool)
      requires cells != table
      requires Sound(State(cfg, {ValidInterface}, cells[..], table[..], None, 0, dxe))
      ensures Valid() && this.cfg == cfg && this.cells == cells && this.table == table && this.hob == null
      ensures Model() == State(cfg, {ValidInterface}, cells[..], table[..], None, 0, dxe)
    {
      hide Sound;
      this.cfg, this.status, this.cells, this.table := cfg, {ValidInterface}, cells, table;
      this.hob, this.checksum, this.dxe := null, 0, dxe;
    }

    /** The DXE manager as InitializeCmosTablesFromHob leaves it: it shares the
        tables and the buffer of the block but never writes the block. */
    constructor TakeOver(block: Hob, cells: array<byte>)
      requires cells != block.table
      requires Sound(State(block.cfg, block.status, cells[..], block.table[..], None, block.checksum, true))
      ensures Valid() && this.cfg == block.cfg && this.cells == cells && this.table == block.table && this.hob == null
      ensures Model() == State(block.cfg, block.status, cells[..], block.table[..], None, block.checksum, true)
    {
      hide Sound;
      this.cfg, this.status, this.cells, this.table := block.cfg, block.status, cells, block.table;
      this.hob, this.checksum, this.dxe := null, block.checksum, true;
    }

    /** The fields of the model that methods look at directly. */
    lemma Facts()
      requires Valid()
      ensures Sound(Model())
      ensures Model().cfg == cfg && Model().status == status && Model().dxe == dxe
    {
    }

    lemma ListedTokenFacts()
      requires Valid()
      ensures TokensListed(cfg)
      ensures forall i :: 1 <= i < |cfg.tokens| ==> GoodToken(cfg, cfg.tokens[i])
    {
      ListedTokens(cfg);
    }

    lemma Fields()
      ensures Model().cfg == cfg && Model().status == status && Model().dxe == dxe
    {
    }

    lemma TableField()
      ensures Model().table == table[..]
    {
    }

    lemma Separate()
      requires Valid()
      ensures cells != table
    {
    }

    // ---- Physical registers -----------------------------------------------------------

    /** Scan the port map for a bank that gives access to register `a`. */
    method FindBank(a: nat) returns (found: bool)
      requires Valid()
      ensures found <==> Backed(cfg, a)
    {
      hide Sound;
      var i := 1;
      while i < |cfg.banks|
        invariant 1 <= i
        invariant forall k :: 1 <= k < i && k < |cfg.banks| ==> !Covers(cfg.banks[k], a)
      {
        if Covers(cfg.banks[i], a) { return true; }
        i := i + 1;
      }
      return false;
    }

    method BankRead(a: nat, initial: byte) returns (st: EfiStatus, v: byte)
      requires Valid()
      ensures (st, v) == if Backed(cfg, a) then (Success, Peek(Model(), Physical(a), initial)) else (NotFound, initial)
    {
      hide WellFormed, Steady, Backed;
      var found := FindBank(a);
      if !found { return NotFound, initial; }
      BackedExists(Model(), a);
      return Success, cells[a];
    }

    method BankStore(a: nat, v: byte) returns (st: EfiStatus)
      requires Valid()
      modifies cells
      ensures Valid() && Model() == BankWrite(old(Model()), a, v)
      ensures st == if Backed(cfg, a) then Success else NotFound
    {
      hide WellFormed, Backed, Layout;
      var found := FindBank(a);
      if !found { return NotFound; }
      BackedExists(Model(), a);
      cells[a] := v;
      assert cells[..] == old(cells[..])[a := v];
      SoundKept(old(Model()), Model());
      return Success;
    }

    // ---- Routing --------------------------------------------------------------------------

    method IsNotChecksummed(a: nat) returns (r: bool)
      requires Valid() && Searchable(cfg, a)
      ensures r <==> NotChecksummed(cfg, a)
    {
      hide Layout, Addressable, TokensListed, ApiLayout, ClockLayout, Steady;
      var i := Advance(cfg.noChecksum, a, 1);
      CursorDecidesMembership(cfg.noChecksum, a, i);
      return a == cfg.noChecksum[i];
    }

    method UsesBuffer(a: nat) returns (r: bool)
      requires Valid() && Searchable(cfg, a)
      ensures r <==> RoutesToBuffer(Model(), a)
    {
      hide Sound, NotChecksummed, Searchable;
      r := false;
      if OptimalDefaultsEnabled in status {
        r := true;
        if IsUsable in status && RecoverOnlyChecksummed in status {
          var outside := IsNotChecksummed(a);
          if outside { r := false; }
        }
      }
    }

    // ---- Reading ----------------------------------------------------------------------------

    method PhysicalRead(a: nat, initial: byte) returns (v: byte)
      requires Valid() && Backed(cfg, a)
      ensures v == Peek(Model(), Physical(a), initial)
    {
      hide Sound, Backed;
      var st;
      st, v := BankRead(a, initial);
    }

    method BufferRead(a: nat, initial: byte) returns (st: EfiStatus, v: byte)
      requires Valid() && OptimalDefaultsEnabled in status
      ensures Managed(cfg, a) ==> st == Success && v == Peek(Model(), Buffered(BufferIndex(cfg, a)), initial)
      ensures !Managed(cfg, a) ==> st == InvalidParameter && v == initial
    {
      hide WellFormed, Layout;
      if a < cfg.first || a > cfg.last { return InvalidParameter, initial; }
      return Success, table[a - cfg.first + 1];
    }

    /** CmosReadWrite, reading. */
    method RegisterRead(a: nat, initial: byte) returns (v: byte)
      requires Valid() && GoodRegister(cfg, a)
      ensures v == Peek(Model(), Reach(Model(), a), initial)
    {
      hide Sound, Backed, Searchable, NotChecksummed;
      var buffered := UsesBuffer(a);
      if buffered {
        var st;
        st, v := BufferRead(a, initial);
      } else {
        v := PhysicalRead(a, initial);
      }
    }

    /** CmosFindToken: 0 when the code is not listed. */
    method FindToken(code: word) returns (i: nat)
      requires Valid() && MIN_TOKEN_VALUE <= code
      ensures i > 0 ==> i < |cfg.tokens| && cfg.tokens[i] == TokenOf(code) && GoodToken(cfg, TokenOf(code))
      ensures i > 0 <==> HasToken(cfg, TokenOf(code))
    {
      hide Valid, Model, Sound, WellFormed, TokensListed, TokenOf, AllBits, GoodToken;
      ListedTokenFacts();
      i := 1;
      while i < |cfg.tokens| && AllBits(cfg.tokens[i]) != code
        invariant 1 <= i
        invariant forall k :: 1 <= k < i && k < |cfg.tokens| ==> cfg.tokens[k] != TokenOf(code)
      {
        CodeFound(cfg, i, code);
        i := i + 1;
      }
      if i < |cfg.tokens| {
        CodeFound(cfg, i, code);
      } else {
        i := 0;
      }
    }

    /** CmosRead. */
    method ReadCode(code: word, initial: byte) returns (st: EfiStatus, v: byte)
      requires Valid()
      ensures (st, v) == Read(Model(), code, initial)
    {
      hide Sound, TokenOf, Decode, GoodRegister, HasToken, Backed;
      if code <= 0xe {
        st, v := BankRead(code, initial);
      } else if code < MIN_TOKEN_VALUE {
        if IsUsable !in status {
          st, v := DeviceError, initial;
        } else {
          st, v := BankRead(code, initial);
        }
      } else {
        var i := FindToken(code);
        if i > 0 {
          var raw := RegisterRead(cfg.tokens[i].address, initial);
          st, v := Success, Decode(raw, cfg.tokens[i]);
        } else {
          st, v := InvalidParameter, initial;
        }
      }
    }

    /** ReadChecksum: the first read fills the low byte of the caller's variable,
        the shift discards whatever its high byte held. */
    method LoadChecksum(initial: word) returns (w: word)
      requires Valid()
      ensures w == StoredChecksum(Model())
    {
      hide Sound, AllBits, View, Read, WithLowByte, ShiftByte;
      ChecksumByteRead(Model(), cfg.checksumHigh, initial % 256);
      var st, high := ReadCode(AllBits(cfg.checksumHigh), initial % 256);
      w := ShiftByte(WithLowByte(initial, high));
      ChecksumByteRead(Model(), cfg.checksumLow, w % 256);
      var low;
      st, low := ReadCode(AllBits(cfg.checksumLow), w % 256);
      ShiftDiscards(initial, high, low);
      w := WithLowByte(w, low);
    }

    // ---- Status and writing: one mutually recursive family ------------------------------------
    //
    // A status update with persisted bits may write tokens; a token write with checksum
    // updating enabled may store the checksum; storing the checksum writes tokens with
    // updating suspended.  The first component of each measure counts these three levels.

    method AssignStatus(bits: Bitmap, on: bool)
      requires Valid() && (on && OptimalDefaultsEnabled in bits ==> CoversRange(Model()))
      modifies this`status
      ensures Valid() && Model() == Assign(old(Model()), bits, on)
    {
      hide Sound, CoversRange;
      AssignSound(Model(), bits, on);
      status := if on then status + bits else status - bits;
    }

    method UpdateHobStatus()
      requires Valid()
      modifies hob
      ensures Valid() && Model() == SyncHob(old(Model()))
    {
      hide Sound;
      SoundKept(Model(), SyncHob(Model()));
      if hob != null { hob.status := status; }
    }

    method PersistBit(bits: Bitmap, flag: Flag, t: Token)
      requires Valid() && HasToken(cfg, t)
      modifies this`status, cells, table, hob
      ensures Valid() && Model() == Persist(old(Model()), bits, flag, t)
      decreases 1, 9
    {
      hide Valid, Model, WellFormed, Steady, Write, WriteField, HasToken, AllBits;
      Facts();
      WriteByCode(Model(), t, 1);
      if flag in bits { var st := WriteCode(AllBits(t), 1); }
    }

    /** Record the persisted bits of `bits` in their CMOS tokens. */
    method PersistBits(bits: Bitmap)
      requires Valid()
      modifies this`status, cells, table, hob
      ensures Valid() && Model() == PersistAll(old(Model()), bits)
      decreases 1, 10
    {
      hide Valid, Model, Sound, WellFormed, Steady, Persist, ChecksumLayout, HasToken;
      Facts();
      SoundParts(Model());
      PersistBit(bits, BadBattery, cfg.batteryBad);
      PersistBit(bits, BadChecksum, cfg.checksumBad);
      PersistBit(bits, DefaultsLoaded, cfg.defaultsLoaded);
      PersistBit(bits, FirstBootDetected, cfg.firstBoot);
    }

    /** CmosManagerSetClearStatus. */
    method SetClearStatus(bits: Bitmap, on: bool)
      requires Valid() && (on && OptimalDefaultsEnabled in bits ==> CoversRange(Model()))
      modifies this`status, cells, table, hob
      ensures Valid() && Model() == SetClear(old(Model()), bits, on)
      decreases if bits * PERSISTED == {} then 0 else 2, 0
    {
      hide Sound, LegacyByte, PersistAll, SyncLegacy, SyncHob;
      ghost var s := Model();
      Facts();
      AssignStatus(bits, on);
      Facts();
      hide Valid, Model, Assign;
      AssignMeaning(s, bits, on);
      if on && IsUsable in status {
        if bits * PERSISTED != {} {
          PersistBits(bits);
        } else {
          NothingToPersist(Model(), bits);
        }
      }
      if BadChecksum in bits || BadBattery in bits {
        SynchronizeLegacy(bits, on);
      } else {
        UnmirroredSync(Model(), bits, on);
      }
      UpdateHobStatus();
    }

    /** Read the diagnostic register, change one bit, write it back. */
    method MirrorBit(m: Bits, on: bool)
      requires Valid()
      modifies cells
      ensures Valid()
      ensures Model() == Poke(old(Model()), Physical(DIAGNOSTIC_REGISTER),
                              Mirror(Peek(old(Model()), Physical(DIAGNOSTIC_REGISTER), 0), m, on, dxe))
    {
      hide Valid, Model, Sound, Mirror, Backed, Poke, Peek;
      Facts();
      DiagnosticBacked(Model());
      var st, b := BankRead(DIAGNOSTIC_REGISTER, 0);
      st := BankStore(DIAGNOSTIC_REGISTER, Mirror(b, m, on, dxe));
    }

    /** SynchronizeLegacyStatusRegisters. */
    method SynchronizeLegacy(bits: Bitmap, on: bool)
      requires Valid()
      modifies cells
      ensures Valid() && Model() == SyncLegacy(old(Model()), bits, on)
    {
      hide Valid, Model, SyncLegacy, Mirror, Poke, Peek;
      Fields();
      SyncBySteps(Model(), bits, on);
      if BadChecksum in bits { MirrorBit(0x40, on); }
      if BadBattery in bits { MirrorBit(0x80, on); }
    }

    /** Search both exclusion tables from their start. */
    method IsExcluded(a: nat) returns (r: bool)
      requires Valid() && Searchable(cfg, a)
      ensures r <==> Excluded(cfg, a)
    {
      hide Sound;
      SortedTables(Model());
      var i := Advance(cfg.noChecksum, a, 1);
      var j := Advance(cfg.unmanaged, a, 1);
      CursorDecidesMembership(cfg.noChecksum, a, i);
      CursorDecidesMembership(cfg.unmanaged, a, j);
      return a == cfg.noChecksum[i] || a == cfg.unmanaged[j];
    }

    /** CalculateUpdatedCheckSum: note whether the register is checksummed, and if
        so derive the new checksum from the stored one. */
    method UpdateChecksum(a: nat, before: byte, after: byte) returns (w: word)
      requires Valid() && Searchable(cfg, a)
      modifies this`status, cells, table, hob
      ensures Valid() && Model() == Flip(old(Model()), {AddressIsChecksummed}, !Excluded(cfg, a))
      ensures !Excluded(cfg, a) ==> w == UpdatedChecksum(StoredChecksum(old(Model())), before, after)
      decreases 0, 3
    {
      hide Valid, Model, Sound, StoredChecksum, Excluded, Searchable, SetClear, Flip;
      w := 0;
      var excluded := IsExcluded(a);
      PlainSetClear(Model(), {AddressIsChecksummed}, !excluded);
      if excluded {
        SetClearStatus({AddressIsChecksummed}, false);
      } else {
        w := LoadChecksum(w);
        w := (w - before + after) % 0x1_0000;
        SetClearStatus({AddressIsChecksummed}, true);
      }
    }

    method NoteInHob(w: word)
      requires Valid()
      modifies hob
      ensures Valid() && Model() == NoteChecksum(old(Model()), w)
    {
      hide Sound;
      NoteSound(Model(), w);
      if hob != null { hob.checksum := w; }
    }

    /** WriteChecksum. */
    method WriteChecksum(w: word)
      requires Valid()
      modifies this`status, cells, table, hob
      ensures Valid() && Model() == StoreChecksum(old(Model()), w)
      decreases 0, 9
    {
      hide Valid, Model, Sound, WellFormed, Steady, Write, WriteField, ChecksumLayout, HasToken, AllBits;
      hide StoreChecksum, SetClear, Flip, NoteChecksum;
      ghost var s := Model();
      Facts();
      SoundParts(s);
      StoreBySteps(s, w);
      NoteInHob(w);
      PlainSetClear(Model(), {ForceNoChecksum}, true);
      SetClearStatus({ForceNoChecksum}, true);
      Fields();
      WriteByCode(Model(), cfg.checksumLow, w % 256);
      var st := WriteCode(AllBits(cfg.checksumLow), w % 256);
      Fields();
      WriteByCode(Model(), cfg.checksumHigh, w / 256);
      st := WriteCode(AllBits(cfg.checksumHigh), w / 256);
      PlainSetClear(Model(), {ForceNoChecksum}, false);
      SetClearStatus({ForceNoChecksum}, false);
    }

    /** Store the checksum, if updating is enabled and the register is checksummed. */
    method CarryChecksum(w: word)
      requires Valid()
      modifies this`status, cells, table, hob
      ensures Valid()
      ensures Model() == if ForceNoChecksum !in old(status) && AddressIsChecksummed in old(status)
                         then StoreChecksum(old(Model()), w) else old(Model())
      decreases if ForceNoChecksum in status then 0 else 1, 4
    {
      hide Valid, Model, StoreChecksum, SetClear, Flip;
      if ForceNoChecksum !in status {
        if AddressIsChecksummed in status {
          SuspendedStore(Model(), w);
          PlainSetClear(Model(), {ForceNoChecksum}, true);
          SetClearStatus({ForceNoChecksum}, true);
          WriteChecksum(w);
          PlainSetClear(Model(), {ForceNoChecksum}, false);
          SetClearStatus({ForceNoChecksum}, false);
        }
      }
    }

    /** CmosPhysicalReadWrite, writing. */
    method PhysicalWrite(a: nat, mask: byte, v: byte)
      requires Valid() && GoodRegister(cfg, a)
      modifies this`status, cells, table, hob
      ensures Valid() && Model() == WriteCell(old(Model()), a, Physical(a), mask, v)
      decreases if ForceNoChecksum in status then 0 else 1, 5
    {
      hide Sound, Merge, StoreChecksum, StoredChecksum, Searchable, Excluded, Backed, SetClear;
      ghost var s := Model();
      var before := PhysicalRead(a, 0);
      var after := Merge(before, mask, v);
      var w: word := 0;
      if ForceNoChecksum !in status {
        ReplaceBySteps(s, a, Physical(a), after);
        w := UpdateChecksum(a, before, after);
      }
      var st := BankStore(a, after);
      CarryChecksum(w);
    }

    lemma BufferAt(a: nat)
      requires Valid() && OptimalDefaultsEnabled in status
      ensures Managed(cfg, a) ==> a - cfg.first + 1 < table.Length
      ensures Managed(cfg, a) ==> Peek(Model(), Buffered(BufferIndex(cfg, a)), 0) == table[a - cfg.first + 1]
    {
      hide Sound;
      BufferFits(Model());
    }

    method BufferStore(i: nat, v: byte)
      requires Valid() && i < table.Length
      modifies table
      ensures Valid() && Model() == Poke(old(Model()), Buffered(i), v)
    {
      hide Sound;
      ghost var s := Model();
      SoundKept(s, Poke(s, Buffered(i), v));
      table[i] := v;
      assert table[..] == s.table[i := v];
    }

    /** CmosBufferReadWrite, writing. */
    method BufferWrite(a: nat, mask: byte, v: byte) returns (st: EfiStatus)
      requires Valid() && GoodRegister(cfg, a) && OptimalDefaultsEnabled in status
      modifies this`status, cells, table, hob
      ensures Valid()
      ensures Managed(cfg, a) ==>
        st == Success && Model() == WriteCell(old(Model()), a, Buffered(BufferIndex(cfg, a)), mask, v)
      ensures !Managed(cfg, a) ==> st == InvalidParameter && Model() == old(Model())
      decreases if ForceNoChecksum in status then 0 else 1, 5
    {
      hide Valid, Model, Poke, Sound, Merge, StoreChecksum, StoredChecksum, Searchable, Excluded;
      hide Backed, SetClear;
      ghost var s := Model();
      Facts();
      BufferFits(s);
      BufferAt(a);
      if a < cfg.first || a > cfg.last { return InvalidParameter; }
      var i := a - cfg.first + 1;
      var before := table[i];
      var after := Merge(before, mask, v);
      var w: word := 0;
      if ForceNoChecksum !in status {
        ReplaceBySteps(s, a, Buffered(i), after);
        w := UpdateChecksum(a, before, after);
      }
      BufferStore(i, after);
      Fields();
      CarryChecksum(w);
      return Success;
    }

    /** CmosReadWrite, writing. */
    method RegisterWrite(a: nat, mask: byte, v: byte) returns (st: EfiStatus)
      requires Valid() && GoodRegister(cfg, a)
      modifies this`status, cells, table, hob
      ensures Valid() && Model() == WriteRegister(old(Model()), a, mask, v)
      ensures st == if old(Reach(Model(), a)) == Nowhere then InvalidParameter else Success
      decreases if ForceNoChecksum in status then 0 else 1, 6
    {
      hide Sound, Backed, Searchable, NotChecksummed, Merge;
      var buffered := UsesBuffer(a);
      if buffered {
        st := BufferWrite(a, mask, v);
      } else {
        PhysicalWrite(a, mask, v);
        st := Success;
      }
    }

    /** CmosWrite. */
    method WriteCode(code: word, v: byte) returns (st: EfiStatus)
      requires Valid()
      modifies this`status, cells, table, hob
      ensures Valid() && (st, Model()) == Write(old(Model()), code, v)
      decreases if ForceNoChecksum in status then 0 else 1, 8
    {
      hide Sound, TokenOf, GoodRegister, HasToken, Backed, WriteRegister, Overflows, FieldMask;
      hide Encode, BankWrite;
      if code <= 0xe {
        st := BankStore(code, v);
      } else if code < MIN_TOKEN_VALUE {
        if IsUsable !in status {
          st := DeviceError;
        } else if cfg.managedLow <= code < cfg.managedMax {
          st := InvalidParameter;
        } else {
          st := BankStore(code, v);
        }
      } else {
        var i := FindToken(code);
        if i > 0 {
          var t := cfg.tokens[i];
          if Overflows(v, t) {
            st := InvalidParameter;
          } else {
            var ignored := RegisterWrite(t.address, FieldMask(t), Encode(v, t));
            st := Success;
          }
        } else {
          st := InvalidParameter;
        }
      }
    }

    // ---- The full checksum ---------------------------------------------------------------------

    /** The scan of CalculateChecksum: one pass with a cursor in each exclusion table. */
    method ScanChecksum() returns (sum: word)
      requires Valid()
      ensures sum == Sum(Model()) % 0x1_0000
    {
      hide Valid, Model, View, SortedTable, GoodRegister, Entries, Searchable, SumBelow, Sum;
      Fields();
      ScanFacts();
      sum := 0;
      var r, u, n := cfg.first, 1, 1;
      SumStart(Model(), r);
      while r <= cfg.last
        invariant cfg.first <= r && (r <= cfg.last + 1 || r == cfg.first)
        invariant sum == SumBelow(Model(), r) % 0x1_0000
        invariant 1 <= u < |cfg.unmanaged| && forall k :: 1 <= k < u ==> cfg.unmanaged[k] < r
        invariant 1 <= n < |cfg.noChecksum| && forall k :: 1 <= k < n ==> cfg.noChecksum[k] < r
      {
        ManagedFacts(r);
        ScanStep(Model(), r);
        u := Advance(cfg.unmanaged, r, u);
        CursorDecidesMembership(cfg.unmanaged, r, u);
        if r == cfg.unmanaged[u] {
          r := r + 1;
          continue;
        }
        n := Advance(cfg.noChecksum, r, n);
        CursorDecidesMembership(cfg.noChecksum, r, n);
        if r != cfg.noChecksum[n] {
          var v := RegisterRead(r, 0);
          ViewIsPeek(Model(), r);
          AddModulo(SumBelow(Model(), r), v);
          sum := (sum + v) % 0x1_0000;
        }
        r := r + 1;
      }
      ScanEnd(Model(), r);
    }

    /** CalculateChecksum. */
    method CalculateChecksum() returns (sum: word)
      requires Valid()
      modifies this`status, cells, table, hob
      ensures Valid() && Model() == Recalculate(old(Model()))
      ensures sum == Sum(old(Model())) % 0x1_0000
    {
      hide Valid, Model, Sum, StoredChecksum, SetClear;
      sum := ScanChecksum();
      var current := LoadChecksum(0);
      SetClearStatus({BadChecksum}, sum != current);
    }

    lemma ScanFacts()
      requires Valid()
      ensures SortedTable(cfg.noChecksum) && SortedTable(cfg.unmanaged)
      ensures |cfg.noChecksum| >= 2 && |cfg.unmanaged| >= 2
    {
      hide ApiLayout, ClockLayout, TokensListed, Layout, Addressable;
    }

    lemma ManagedFacts(a: nat)
      requires Valid() && Managed(cfg, a)
      ensures GoodRegister(cfg, a) && a < cells.Length
      ensures |cfg.noChecksum| >= 2 && a != cfg.noChecksum[|cfg.noChecksum| - 1]
      ensures |cfg.unmanaged| >= 2 && a != cfg.unmanaged[|cfg.unmanaged| - 1]
    {
      hide ApiLayout, ClockLayout, TokensListed, Backed, Layout;
    }

    lemma TableLength()
      ensures |Model().table| == table.Length && |Model().cells| == cells.Length
    {
    }

    // ---- Loading the defaults ----------------------------------------------------------------------

    lemma CoverMeaning()
      ensures CoversRange(Model()) <==> cfg.last + 1 < table.Length + cfg.first
      ensures Valid() && OptimalDefaultsEnabled in status ==> CoversRange(Model())
    {
      hide WellFormed, Layout;
    }

    /** Give register `r` entry `d` of the table, as the load that began in `s` does. */
    method WriteDefault(r: nat, d: nat, ghost s: State)
      requires Valid() && Managed(cfg, r) && Loads(s, r) && d == DefaultIndex(cfg, r)
      requires ForceNoChecksum in s.status && OptimalDefaultsEnabled !in s.status
      requires Model() == s.(cells := LoadedCells(s, r))
      modifies this`status, cells, table, hob
      ensures Valid() && Model() == s.(cells := LoadedCells(s, r + 1))
    {
      hide Valid, Sound, GoodRegister, LoadedCells, WriteRegister;
      ManagedFacts(r);
      LoadWrite(s, r);
      var st := RegisterWrite(r, ALL_BITS, table[d]);
      assert st == Success;
    }

    /** The write loop of LoadOptimalDefaults.  Unmanaged registers have no entry in
        the table; the loop ends early when the table is used up.  With the buffer
        off every write succeeds, so the loop has no failing exit. */
    method WriteDefaults()
      requires Valid() && ForceNoChecksum in status && OptimalDefaultsEnabled !in status
      modifies this`status, cells, table, hob
      ensures Valid()
      ensures Model() == old(Model()).(cells := LoadedCells(old(Model()), cfg.last + 1))
    {
      hide Valid, Model, SortedTable, GoodRegister, LoadedCells, Entries, DefaultIndex;
      Fields();
      ScanFacts();
      TableLength();
      ghost var s := Model();
      var d, u, n := 1, 1, 1;
      var r := cfg.first;
      LoadStart(s, r);
      IndexStart(cfg);
      while r <= cfg.last
        invariant cfg.first <= r && (r <= cfg.last + 1 || r == cfg.first)
        invariant Valid() && Model() == s.(cells := LoadedCells(s, r)) && status == s.status
        invariant d == DefaultIndex(cfg, r)
        invariant 1 <= u < |cfg.unmanaged| && forall k :: 1 <= k < u ==> cfg.unmanaged[k] < r
        invariant 1 <= n < |cfg.noChecksum| && forall k :: 1 <= k < n ==> cfg.noChecksum[k] < r
      {
        IndexStep(cfg, r);
        if d >= table.Length { break; }
        ManagedFacts(r);
        ScanStep(Model(), r);
        u := Advance(cfg.unmanaged, r, u);
        CursorDecidesMembership(cfg.unmanaged, r, u);
        if r == cfg.unmanaged[u] {
          LoadSkip(s, r);
          r := r + 1;
          continue;
        }
        if {BadChecksum, RecoverOnlyChecksummed} <= status {
          n := Advance(cfg.noChecksum, r, n);
          CursorDecidesMembership(cfg.noChecksum, r, n);
          if r == cfg.noChecksum[n] {
            LoadSkip(s, r);
            r, d := r + 1, d + 1;
            continue;
          }
        }
        WriteDefault(r, d, s);
        Fields();
        r, d := r + 1, d + 1;
      }
      if r <= cfg.last { LoadUsedUp(s, r, cfg.last + 1); } else { LoadEnd(s, r); }
    }

    /** Force physical access, suspend checksum updating, forget a bad checksum on
        the first boot. */
    method BeginLoading()
      requires Valid()
      modifies this`status, cells, table, hob
      ensures Valid() && Model() == BeginLoad(old(Model()))
      ensures ForceNoChecksum in status && OptimalDefaultsEnabled !in status
    {
      hide Valid, Model, Sound, SetClear, Restricted, SameStore, Layout, Fits;
      ghost var s := Model();
      Facts();
      SoundLayout(s);
      BeginLoadEffect(s);
      SetClearStatus({OptimalDefaultsEnabled}, false);
      SetClearStatus({ForceNoChecksum}, true);
      Fields();
      if FirstBootDetected in status { SetClearStatus({BadChecksum}, false); }
      Fields();
    }

    /** Restore the routing, resume checksum updating, note that defaults were loaded. */
    method EndLoading(saved: Bitmap)
      requires Valid() && (OptimalDefaultsEnabled in saved ==> CoversRange(Model()))
      modifies this`status, cells, table, hob
      ensures Valid() && Model() == EndLoad(old(Model()), saved)
    {
      hide Valid, Model, SetClear, CoversRange;
      AssignStatus(saved, true);
      SetClearStatus({ForceNoChecksum}, false);
      SetClearStatus({DefaultsLoaded}, true);
    }

    /** LoadOptimalDefaults. */
    method LoadOptimalDefaults() returns (st: EfiStatus)
      requires Valid()
      modifies this`status, cells, table, hob
      ensures Valid() && (st, Model()) == Load(old(Model()))
    {
      hide Valid, Model, SetClear, LoadedCells, Recalculate, StoreChecksum, Sum, BeginLoad, EndLoad;
      hide CoversRange;
      ghost var s := Model();
      Fields();
      CoverMeaning();
      var saved := status * {OptimalDefaultsEnabled};
      BeginLoading();
      WriteDefaults();
      Fields();
      if ErrorLoadingDefaults in status {
        st := Unsupported;
      } else {
        var sum := CalculateChecksum();
        WriteChecksum(sum);
        SetClearStatus({BadChecksum}, false);
        st := Success;
      }
      CoverMeaning();
      EndLoading(saved);
    }

    // ---- Configuration ---------------------------------------------------------------------------

    /** A PEI manager that does not execute in memory needs a writable copy of the table. */
    method MakeTableWritable()
      requires Valid() && (hob != null ==> ExecutingInMemory in status)
      modifies this`table
      ensures Valid() && Model() == old(Model())
      ensures if ExecutingInMemory in status then table == old(table) else fresh(table)
    {
      hide Sound;
      if ExecutingInMemory !in status {
        var source := table;
        var copy := new byte[source.Length](i requires 0 <= i < source.Length reads source => source[i]);
        assert copy[..] == source[..];
        table := copy;
      }
    }

    method KeepChecksum(w: word)
      requires Valid()
      modifies this`checksum
      ensures Valid() && checksum == w && Model() == old(Model()).(checksum := w)
    {
      hide Sound;
      SoundKept(Model(), Model().(checksum := w));
      checksum := w;
    }

    /** CmosConfigureManager. */
    method ConfigureManager(on: bool, off: bool) returns (st: EfiStatus)
      requires Valid() && (hob != null ==> ExecutingInMemory in status)
      requires on && OptimalDefaultsEnabled !in status ==> CoversRange(Model())
      modifies this`status, this`table, this`checksum, cells, table, hob
      ensures Valid()
      ensures if on && !off && {OptimalDefaultsEnabled, ExecutingInMemory} !! old(status)
              then fresh(table) && old(table)[..] == old(table[..]) else table == old(table)
      ensures st == if on && off then InvalidParameter else Success
      ensures Model() == if on == off then old(Model())
                         else if on then BufferOn(old(Model())) else BufferOff(old(Model()))
    {
      hide Valid, Model, SetClear, Recalculate, StoreChecksum, Sum, CoversRange;
      Fields();
      Separate();
      if on && off { return InvalidParameter; }
      if on {
        if OptimalDefaultsEnabled in status { return Success; }
        MakeTableWritable();
        SetClearStatus({OptimalDefaultsEnabled}, true);
        var sum := CalculateChecksum();
        KeepChecksum(sum);
        WriteChecksum(checksum);
      }
      if off { SetClearStatus({OptimalDefaultsEnabled}, false); }
      return Success;
    }

    // ---- The interface pointer ---------------------------------------------------------------------

    lemma ApiFacts(a: nat)
      requires Valid() && IsApiRegister(a)
      ensures GoodRegister(cfg, a) && a < cells.Length
    {
      hide ApiLayout, ClockLayout, TokensListed, Layout, Backed, Searchable, SortedTable;
      BackedExists(Model(), a);
    }

    /** SaveApiPointerToCmos. */
    method SaveApiPointer(p: pointer) returns (st: EfiStatus)
      requires Valid()
      modifies this`status, cells, table, hob
      ensures Valid() && (st, Model()) == SaveApi(old(Model()), p)
    {
      hide Valid, Model, GoodRegister, WriteCell, ApiByte;
      Fields();
      if IsUsable !in status { return DeviceError; }
      ghost var s := Model();
      var k := 0;
      while k < 4
        invariant 0 <= k <= 4
        invariant Valid() && SaveFrom(Model(), p, k) == SaveFrom(s, p, 0)
      {
        ApiFacts(API_BYTE3 + k);
        PhysicalWrite(API_BYTE3 + k, ALL_BITS, ApiByte(p, k));
        k := k + 1;
      }
      return Success;
    }

    /** GetApiPointerFromCmos. */
    method GetApiPointer() returns (st: EfiStatus, p: pointer)
      requires Valid()
      ensures IsUsable !in status ==> st == DeviceError
      ensures IsUsable in status ==> st == Success && p == GetUpTo(Model(), 4)
    {
      hide Valid, Model, GoodRegister, Backed;
      p := 0;
      if IsUsable !in status { return DeviceError, p; }
      var k := 0;
      while k < 4
        invariant 0 <= k <= 4
        invariant p == GetUpTo(Model(), k)
      {
        ApiFacts(API_BYTE3 + k);
        ApiBacked(API_BYTE3 + k);
        var b := PhysicalRead(API_BYTE3 + k, 0);
        p := (p * 256 + b) % 0x1_0000_0000;
        k := k + 1;
      }
      return Success, p;
    }

    lemma ApiBacked(a: nat)
      requires GoodRegister(cfg, a)
      ensures Backed(cfg, a)
    {
    }

    // ---- The hand-off block ----------------------------------------------------------------------------

    /** CreateCmosDataHob: copy status, tables and buffer into a new block and work on
        the copies.  The slots past the copied exclusion tables hold whatever memory held. */
    method CreateDataHob(spare: nat, spare': nat)
      requires Valid() && GoodSpare(cfg, spare) && GoodSpare(cfg, spare')
      modifies this`hob, this`cfg, this`table
      ensures Valid() && hob != null && fresh(hob) && fresh(table) && hob.table == table
      ensures Model() == CreateHob(old(Model()), spare, spare')
    {
      hide Sound, CreateHob, GoodSpare, Copied;
      ghost var s := Model();
      RespareSound(s, spare, spare');
      CreateHobFields(s, spare, spare');
      var source := table;
      var copy := new byte[source.Length](i requires 0 <= i < source.Length reads source => source[i]);
      assert copy[..] == source[..];
      cfg := cfg.(noChecksum := Copied(cfg.noChecksum, spare), unmanaged := Copied(cfg.unmanaged, spare'));
      table := copy;
      hob := new Hob(status, checksum, cfg, table);
      assert Model() == CreateHob(s, spare, spare');
    }

    // ---- Date and time --------------------------------------------------------------------------------

    lemma ClockFacts()
      requires Valid()
      ensures ClockBacked(Model())
    {
      hide ApiLayout, ClockLayout, TokensListed, Layout, Backed, Searchable, SortedTable;
      BackedExists(Model(), CENTURY_REGISTER);
    }

    method ReadRtcIndex(index: nat) returns (d: byte)
      requires Valid() && IsClockRegister(index)
      ensures d == ReadRtc(Model(), index)
    {
      hide Valid, Model, Backed;
      ClockFacts();
      Fields();
      var st, b := BankRead(index, 0);
      return BcdToDec(b);
    }

    method WriteRtcIndex(index: nat, d: byte)
      requires Valid()
      modifies cells
      ensures Valid() && Model() == WriteRtc(old(Model()), index, d)
    {
      hide Valid, Model;
      var st := BankStore(index, DecToBcd(d));
    }

    /** Set or clear the update-inhibit bit. */
    method SetInhibit(on: bool)
      requires Valid()
      modifies cells
      ensures Valid() && Model() == if on then StopTime(old(Model())) else StartTime(old(Model()))
    {
      hide Valid, Model, Backed, SetBits, ClearBits, BankWrite;
      ClockFacts();
      Fields();
      var st, b := BankRead(CONTROL_REGISTER, 0);
      st := BankStore(CONTROL_REGISTER, if on then SetBits(b, UPDATE_INHIBIT) else ClearBits(b, UPDATE_INHIBIT));
    }

    /** The clock registers are written only while the clock stands still. */
    method WriteClock(t: Time)
      requires Valid() && Inhibited(Model())
      modifies cells
      ensures Valid() && Model() == WriteTime(old(Model()), t)
    {
      hide Valid, Model, WriteRtc, Inhibited;
      WriteRtcIndex(CENTURY_REGISTER, t.year / 100 % 256);
      WriteRtcIndex(9, t.year % 100);
      WriteRtcIndex(8, t.month);
      WriteRtcIndex(7, t.day);
      WriteRtcIndex(4, t.hour);
      WriteRtcIndex(2, t.minute);
      WriteRtcIndex(0, t.second);
    }

    /** CmosSetDateTime. */
    method SetDateTime(t: Time)
      requires Valid()
      modifies cells
      ensures Valid() && Model() == SetTime(old(Model()), t)
    {
      hide Valid, Model, StopTime, StartTime, WriteTime, Inhibited;
      ClockFacts();
      StopInhibits(Model());
      SetInhibit(true);
      WriteClock(t);
      SetInhibit(false);
    }

    /** CmosGetDateTime. */
    method GetDateTime() returns (t: Time)
      requires Valid()
      ensures t == GetTime(Model())
    {
      hide Valid, Model, ReadRtc;
      var century: nat := ReadRtcIndex(CENTURY_REGISTER);
      var year: nat := ReadRtcIndex(9);
      var month := ReadRtcIndex(8);
      var day := ReadRtcIndex(7);
      var hour := ReadRtcIndex(4);
      var minute := ReadRtcIndex(2);
      var second := ReadRtcIndex(0);
      return Time(century * 100 + year, month, day, hour, minute, second);
    }
  }

  lemma AssignMeaning(s: State, bits: Bitmap, on: bool)
    ensures Assign(s, bits, on) == s.(status := if on then s.status + bits else s.status - bits)
  {
  }

  lemma NothingToPersist(s: State, bits: Bitmap)
    requires bits * PERSISTED == {}
    ensures PersistAll(s, bits) == s
  {
    hide WriteField;
    forall f | f in PERSISTED ensures f !in bits { assert f in bits ==> f in bits * PERSISTED; }
    assert BadBattery in PERSISTED && BadChecksum in PERSISTED
        && DefaultsLoaded in PERSISTED && FirstBootDetected in PERSISTED;
  }

  lemma CreateHobFields(s: State, spare: nat, spare': nat)
    ensures CreateHob(s, spare, spare') == s.(
      hob := Some(HobState(s.status, s.checksum)),
      cfg := s.cfg.(noChecksum := Copied(s.cfg.noChecksum, spare), unmanaged := Copied(s.cfg.unmanaged, spare')))
  {
  }

  lemma SoundLayout(s: State)
    requires Sound(s)
    ensures Layout(s.cfg) && Steady(s)
  {
    hide WellFormed, Layout;
  }

  lemma DiagnosticBacked(s: State)
    requires Sound(s)
    ensures Backed(s.cfg, DIAGNOSTIC_REGISTER) && DIAGNOSTIC_REGISTER < |s.cells|
  {
    hide Layout, ApiLayout, ClockLayout, TokensListed, Backed;
  }

  lemma SortedTables(s: State)
    requires Sound(s)
    ensures SortedTable(s.cfg.noChecksum) && SortedTable(s.cfg.unmanaged)
    ensures |s.cfg.noChecksum| >= 2 && |s.cfg.unmanaged| >= 2
  {
    hide Layout, ApiLayout, ClockLayout, TokensListed, Addressable;
  }

  lemma NoteSound(s: State, w: word)
    requires Sound(s)
    ensures Sound(NoteChecksum(s, w))
  {
    hide WellFormed, Layout;
    SoundKept(s, NoteChecksum(s, w));
  }

  lemma BufferFits(s: State)
    requires Sound(s) && OptimalDefaultsEnabled in s.status
    ensures s.cfg.last + 1 < |s.table| + s.cfg.first
  {
    hide WellFormed, Layout;
  }

  /** The 16-bit variable `w` after a byte is stored through a byte pointer to it. */
  function WithLowByte(w: word, b: byte): word { w / 256 * 256 + b }

  function ShiftByte(w: word): word { w * 256 % 0x1_0000 }

  lemma ShiftDiscards(w: word, high: byte, low: byte)
    ensures WithLowByte(ShiftByte(WithLowByte(w, high)), low) == high * 256 + low
  {
    assert WithLowByte(w, high) == w / 256 * 256 + high;
    assert ShiftByte(w / 256 * 256 + high) == high * 256;
  }

  /** How one register enters the sum. */
  lemma ScanStep(s: State, r: nat)
    ensures SumBelow(s, r + 1) == SumBelow(s, r) + if Summed(s.cfg, r) then View(s, r) else 0
  {
  }

  lemma ListedTokens(c: Config)
    requires WellFormed(c)
    ensures TokensListed(c)
    ensures forall i :: 1 <= i < |c.tokens| ==> GoodToken(c, c.tokens[i])
  {
  }

  /** What the methods need to know of a sound state. */
  lemma SoundParts(s: State)
    requires Sound(s)
    ensures WellFormed(s.cfg) && Steady(s) && ChecksumLayout(s.cfg)
    ensures HasToken(s.cfg, s.cfg.checksumLow) && HasToken(s.cfg, s.cfg.checksumHigh)
    ensures HasToken(s.cfg, s.cfg.batteryBad) && HasToken(s.cfg, s.cfg.checksumBad)
    ensures HasToken(s.cfg, s.cfg.defaultsLoaded) && HasToken(s.cfg, s.cfg.firstBoot)
  {
    hide Addressable, ApiLayout, ClockLayout, SortedTable, StatusLayout;
  }

  /** A checksum token reads as the byte in the view, whatever the caller passed. */
  lemma ChecksumByteRead(s: State, t: Token, initial: byte)
    requires Sound(s) && (t == s.cfg.checksumLow || t == s.cfg.checksumHigh)
    ensures AllBits(t) < 0x1_0000 && Read(s, AllBits(t), initial) == (Success, View(s, t.address))
  {
    SoundParts(s);
    hide Decode, Layout, Sound, WellFormed, AllBits, TokenOf;
    ReadByCode(s, t, initial);
    ManagedRegisterExists(s, t.address);
    WholeByte(View(s, t.address), 0, t);
    ReadFieldIsView(s, t, initial);
  }
}
