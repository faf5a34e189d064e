/** The effect of every CMOS Manager operation as a function on states.  None of
    these functions is recursive: they say in one step what the code reaches
    through the mutual recursion of status updates, writes and checksum writes. */
module CmosModel {
  import opened CmosTypes
  import opened BitFields

  /** The part of the hand-off block that changes after it is created. */
  datatype HobState = HobState(status: Bitmap, checksum: word)

  datatype State = State(
    cfg: Config,
    status: Bitmap,
    cells: seq<byte>,         // physical CMOS
    table: seq<byte>,         // optimal default table, which is also the buffer
    hob: Option<HobState>,
    checksum: word,           // the manager's own copy, refreshed by a full scan
    dxe: bool)                // PeiServices == NULL

  /** Where the router sends an access. */
  datatype Cell = Physical(address: nat) | Buffered(index: nat) | Nowhere

  // ---- Cells --------------------------------------------------------------------

  predicate Exists(s: State, c: Cell) {
    match c
    case Physical(a) => a < |s.cells|
    case Buffered(i) => i < |s.table|
    case Nowhere => false
  }

  function Peek(s: State, c: Cell, otherwise: byte): byte {
    match c
    case Physical(a) => if a < |s.cells| then s.cells[a] else otherwise
    case Buffered(i) => if i < |s.table| then s.table[i] else otherwise
    case Nowhere => otherwise
  }

  function Poke(s: State, c: Cell, v: byte): (s': State)
    ensures s'.cfg == s.cfg
  {
    match c
    case Physical(a) => if a < |s.cells| then s.(cells := s.cells[a := v]) else s
    case Buffered(i) => if i < |s.table| then s.(table := s.table[i := v]) else s
    case Nowhere => s
  }

  // ---- Routing ------------------------------------------------------------------

  predicate RoutesToBuffer(s: State, a: nat) {
    && OptimalDefaultsEnabled in s.status
    && !(IsUsable in s.status && RecoverOnlyChecksummed in s.status && NotChecksummed(s.cfg, a))
  }

  function BufferIndex(c: Config, a: nat): nat
    requires c.first <= a
  {
    a - c.first + 1
  }

  function Reach(s: State, a: nat): Cell {
    if RoutesToBuffer(s, a) then
      if Managed(s.cfg, a) then Buffered(BufferIndex(s.cfg, a)) else Nowhere
    else
      Physical(a)
  }

  /** The byte in physical CMOS, whatever the routing. */
  function Cmos(s: State, a: nat): byte { Peek(s, Physical(a), 0) }

  /** The byte that the router reaches for register `a`. */
  function View(s: State, a: nat): byte { Peek(s, Reach(s, a), 0) }

  // ---- Checksum -----------------------------------------------------------------

  function StoredChecksum(s: State): word {
    View(s, s.cfg.checksumHigh.address) * 256 + View(s, s.cfg.checksumLow.address)
  }

  /** The sum, through the view, of the protected registers below `n`. */
  function SumBelow(s: State, n: nat): nat {
    if n == 0 then 0
    else SumBelow(s, n - 1) + if Summed(s.cfg, n - 1) then View(s, n - 1) else 0
  }

  function Sum(s: State): nat { SumBelow(s, s.cfg.last + 1) }

  predicate Coherent(s: State) { StoredChecksum(s) == Sum(s) }

  // ---- Invariants of a state ------------------------------------------------------

  predicate CoversRange(s: State) { s.cfg.last + 1 < |s.table| + s.cfg.first }

  /** The managed range fits physical CMOS and, while the default table serves
      as the buffer, the range fits that too. */
  predicate Fits(s: State) {
    && DIAGNOSTIC_REGISTER < |s.cells| && s.cfg.last < |s.cells| && 1 <= |s.table|
    && (OptimalDefaultsEnabled in s.status ==> CoversRange(s))
  }

  /** All that the results about states need to know. */
  predicate Steady(s: State) { Layout(s.cfg) && Fits(s) }

  /** A well-formed configuration over a store that holds every bank. */
  ghost predicate Sound(s: State) {
    && WellFormed(s.cfg) && Steady(s) && |s.table| < 0x1_0000
    && forall i :: 1 <= i < |s.cfg.banks| && s.cfg.banks[i].accessible ==> s.cfg.banks[i].high < |s.cells|
  }

  // ---- Status bits --------------------------------------------------------------

  function SyncHob(s: State): State {
    s.(hob := if s.hob.Some? then Some(s.hob.value.(status := s.status)) else None)
  }

  /** Set or clear bits that are neither persisted nor mirrored. */
  function Flip(s: State, bits: Bitmap, on: bool): State {
    SyncHob(s.(status := if on then s.status + bits else s.status - bits))
  }

  function NoteChecksum(s: State, w: word): State {
    s.(hob := if s.hob.Some? then Some(s.hob.value.(checksum := w)) else None)
  }

  function PokeChecksum(s: State, w: word): (s': State)
    ensures s'.cfg == s.cfg
  {
    Poke(Poke(s, Reach(s, s.cfg.checksumLow.address), w % 256),
         Reach(s, s.cfg.checksumHigh.address), w / 256)
  }

  /** WriteChecksum: it always leaves checksum updating enabled. */
  function StoreChecksum(s: State, w: word): (s': State)
    ensures s'.cfg == s.cfg
  {
    Flip(PokeChecksum(NoteChecksum(s, w), w), {ForceNoChecksum}, false)
  }

  // ---- Writing one byte -----------------------------------------------------------

  function UpdatedChecksum(stored: word, before: byte, after: byte): word {
    (stored - before + after) % 0x1_0000
  }

  /** Give register `a`, kept in cell `c`, a new value and carry the checksum along. */
  function Replace(s: State, a: nat, c: Cell, after: byte): (s': State)
    ensures s'.cfg == s.cfg
  {
    var before := Peek(s, c, 0);
    var s1 := Poke(s, c, after);
    if c.Nowhere? || ForceNoChecksum in s.status then s1
    else if Excluded(s.cfg, a) then Flip(s1, {AddressIsChecksummed}, false)
    else
      StoreChecksum(Flip(s1, {AddressIsChecksummed}, true),
                    UpdatedChecksum(StoredChecksum(s), before, after))
  }

  function WriteCell(s: State, a: nat, c: Cell, mask: byte, v: byte): (s': State)
    ensures s'.cfg == s.cfg
  {
    Replace(s, a, c, Merge(Peek(s, c, 0), mask, v))
  }

  function WriteRegister(s: State, a: nat, mask: byte, v: byte): (s': State)
    ensures s'.cfg == s.cfg
  {
    WriteCell(s, a, Reach(s, a), mask, v)
  }

  // ---- Client interface -------------------------------------------------------------

  datatype Decision = Bank(address: nat) | Field(token: Token) | Refuse(status: EfiStatus)

  /** How a client's 16-bit code is taken apart before any register is touched. */
  function Decide(s: State, code: word, writing: bool): (d: Decision)
    ensures d.Field? ==> ProperField(d.token)
  {
    if code <= 0xe then Decision.Bank(code)
    else if code < MIN_TOKEN_VALUE then
      if IsUsable !in s.status then Refuse(DeviceError)
      else if writing && s.cfg.managedLow <= code < s.cfg.managedMax then Refuse(InvalidParameter)
      else Decision.Bank(code)
    else if HasToken(s.cfg, TokenOf(code)) && ProperField(TokenOf(code)) then Field(TokenOf(code))
    else Refuse(InvalidParameter)
  }

  function BankWrite(s: State, a: nat, v: byte): (s': State)
    ensures s'.cfg == s.cfg
  {
    if Backed(s.cfg, a) then Poke(s, Physical(a), v) else s
  }

  /** Read a bit field; `initial` is what the caller's variable held before. */
  function ReadField(s: State, t: Token, initial: byte): byte
    requires ProperField(t)
  {
    Decode(Peek(s, Reach(s, t.address), initial), t)
  }

  function WriteField(s: State, t: Token, v: byte): (s': State)
    requires ProperField(t)
    ensures s'.cfg == s.cfg
  {
    if Overflows(v, t) then s
    else WriteRegister(s, t.address, FieldMask(t), Encode(v, t))
  }

  /** CmosRead. */
  function Read(s: State, code: word, initial: byte): (EfiStatus, byte)
  {
    match Decide(s, code, false)
    case Refuse(e) => (e, initial)
    case Bank(a) => if Backed(s.cfg, a) then (Success, Peek(s, Physical(a), initial)) else (NotFound, initial)
    case Field(t) => (Success, ReadField(s, t, initial))
  }

  /** CmosWrite. */
  function Write(s: State, code: word, v: byte): (r: (EfiStatus, State))
    ensures r.1.cfg == s.cfg
  {
    match Decide(s, code, true)
    case Refuse(e) => (e, s)
    case Bank(a) => (if Backed(s.cfg, a) then Success else NotFound, BankWrite(s, a, v))
    case Field(t) => (if Overflows(v, t) then InvalidParameter else Success, WriteField(s, t, v))
  }

  // ---- Status updates with their side effects ---------------------------------------

  /** A failure bit can always be raised, but lowered only in DXE. */
  function Mirror(b: byte, m: Bits, on: bool, dxe: bool): byte {
    if on then SetBits(b, m) else if dxe then ClearBits(b, m) else b
  }

  function LegacyByte(b: byte, bits: Bitmap, on: bool, dxe: bool): byte {
    var b1 := if BadChecksum in bits then Mirror(b, 0x40, on, dxe) else b;
    if BadBattery in bits then Mirror(b1, 0x80, on, dxe) else b1
  }

  function SyncLegacy(s: State, bits: Bitmap, on: bool): (s': State)
    ensures s'.cfg == s.cfg
  {
    Poke(s, Physical(DIAGNOSTIC_REGISTER),
         LegacyByte(Peek(s, Physical(DIAGNOSTIC_REGISTER), 0), bits, on, s.dxe))
  }

  function Persist(s: State, bits: Bitmap, flag: Flag, t: Token): (s': State)
    ensures s'.cfg == s.cfg
  {
    if flag in bits && ProperField(t) then WriteField(s, t, 1) else s
  }

  function PersistAll(s: State, bits: Bitmap): (s': State)
    ensures s'.cfg == s.cfg
  {
    var s1 := Persist(s, bits, BadBattery, s.cfg.batteryBad);
    var s2 := Persist(s1, bits, BadChecksum, s.cfg.checksumBad);
    var s3 := Persist(s2, bits, DefaultsLoaded, s.cfg.defaultsLoaded);
    Persist(s3, bits, FirstBootDetected, s.cfg.firstBoot)
  }

  /** CmosManagerSetClearStatus. */
  function SetClear(s: State, bits: Bitmap, on: bool): (s': State)
    ensures s'.cfg == s.cfg
  {
    var s1 := s.(status := if on then s.status + bits else s.status - bits);
    var s2 := if on && IsUsable in s1.status then PersistAll(s1, bits) else s1;
    SyncHob(SyncLegacy(s2, bits, on))
  }

  /** CalculateChecksum: the sum, and the state with the bad-checksum bit decided. */
  function Recalculate(s: State): (s': State)
    ensures s'.cfg == s.cfg
  {
    SetClear(s, {BadChecksum}, StoredChecksum(s) != Sum(s) % 0x1_0000)
  }

  // ---- Loading the default table ------------------------------------------------------

  /** How many unmanaged registers lie in [first, r). */
  function UnmanagedBelow(c: Config, r: nat): nat {
    if r <= c.first then 0
    else UnmanagedBelow(c, r - 1) + if Unmanaged(c, r - 1) then 1 else 0
  }

  /** The default table entry that the loader uses for register `r`. */
  function DefaultIndex(c: Config, r: nat): int { r - c.first + 1 - UnmanagedBelow(c, r) }

  function DefaultFor(s: State, r: nat): byte {
    if 0 <= DefaultIndex(s.cfg, r) < |s.table| then s.table[DefaultIndex(s.cfg, r)] else 0
  }

  predicate Restricted(s: State) { {BadChecksum, RecoverOnlyChecksummed} <= s.status }

  /** The loader writes register `r`. */
  predicate Loads(s: State, r: nat) {
    && Managed(s.cfg, r) && !Unmanaged(s.cfg, r)
    && !(Restricted(s) && NotChecksummed(s.cfg, r))
    && 0 <= DefaultIndex(s.cfg, r) < |s.table|
  }

  /** Physical CMOS once the loader has handled the registers below `n`. */
  function LoadedCells(s: State, n: nat): (cells: seq<byte>)
    ensures |cells| == |s.cells|
  {
    seq(|s.cells|, r requires 0 <= r < |s.cells| =>
      if r < n && Loads(s, r) then DefaultFor(s, r) else s.cells[r])
  }

  function BeginLoad(s: State): State {
    var s1 := SetClear(SetClear(s, {OptimalDefaultsEnabled}, false), {ForceNoChecksum}, true);
    if FirstBootDetected in s1.status then SetClear(s1, {BadChecksum}, false) else s1
  }

  function FinishLoad(s: State): State {
    SetClear(StoreChecksum(Recalculate(s), Sum(s) % 0x1_0000), {BadChecksum}, false)
  }

  function EndLoad(s: State, saved: Bitmap): State {
    SetClear(SetClear(s.(status := s.status + saved), {ForceNoChecksum}, false), {DefaultsLoaded}, true)
  }

  /** LoadOptimalDefaults. */
  function Load(s: State): (EfiStatus, State) {
    var saved := s.status * {OptimalDefaultsEnabled};
    var s1 := BeginLoad(s);
    var s2 := s1.(cells := LoadedCells(s1, s.cfg.last + 1));
    if ErrorLoadingDefaults in s2.status then (Unsupported, EndLoad(s2, saved))
    else (Success, EndLoad(FinishLoad(s2), saved))
  }

  // ---- Configuration --------------------------------------------------------------------

  function BufferOn(s: State): State {
    if OptimalDefaultsEnabled in s.status then s
    else
      var s1 := SetClear(s, {OptimalDefaultsEnabled}, true);
      var s2 := Recalculate(s1).(checksum := Sum(s1) % 0x1_0000);
      StoreChecksum(s2, Sum(s1) % 0x1_0000)
  }

  function BufferOff(s: State): State { SetClear(s, {OptimalDefaultsEnabled}, false) }
}
