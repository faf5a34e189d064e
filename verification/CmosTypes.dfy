/** The vocabulary shared by every phase of the CMOS Manager: bytes and words,
    the manager status bits, encoded tokens, and the tables that the build
    generates for a board. */
module CmosTypes {
  type byte = x: nat | x < 256
  type word = x: nat | x < 0x1_0000

  datatype Option<+T> = None | Some(value: T)

  datatype EfiStatus = Success | InvalidParameter | NotFound | DeviceError | Unsupported

  /** The bits of CMOS_MANAGER_STATUS.  A bitmap is a set of these: `|` is union,
      `& ~` is difference, and "all bits of m are set" is inclusion. */
  datatype Flag =
    | ValidManager | InterfaceAlreadyInstalled | InstallFailed | ValidInterface
    | FirstBootDetected | ExecutingInMemory | BadChecksum | AddressIsChecksummed
    | ErrorLoadingDefaults | ForceNoChecksum | BadBattery | OptimalDefaultsEnabled
    | DefaultsLoaded | RecoverOnlyChecksummed | ColdBootDetected | BspIsExecuting
    | RecoverInPei | IsUsable

  type Bitmap = set<Flag>

  /** The bits that decide where an access goes. */
  const ROUTING: Bitmap := {OptimalDefaultsEnabled, IsUsable, RecoverOnlyChecksummed}
  /** The bits whose setting is also recorded in a CMOS token. */
  const PERSISTED: Bitmap := {BadBattery, BadChecksum, DefaultsLoaded, FirstBootDetected}

  const MIN_TOKEN_VALUE: nat := 4096
  const DIAGNOSTIC_REGISTER: nat := 0xe
  const CENTURY_REGISTER: nat := 0x32
  const API_BYTE3: nat := 0x42
  const ALL_BITS: byte := 0xff

  /** A token names a bit field of one register.  `AllBits` is its 16-bit code:
      bits 2..0 hold the offset, 11..3 the register, 15..12 the size. */
  datatype Token = Token(size: byte, address: nat, offset: byte)

  function AllBits(t: Token): nat { t.size * 4096 + t.address * 8 + t.offset }

  function TokenOf(code: word): Token {
    Token(code / 4096, code / 8 % 512, code % 8)
  }

  predicate ProperField(t: Token) { 1 <= t.size <= 8 && t.offset <= 8 - t.size }

  /** One row of the port map.  `accessible` says that the row has a board
      function or a pair of index and data ports. */
  datatype Bank = Bank(low: nat, high: nat, accessible: bool)

  /** The generated tables and build constants.  Index 0 of every table is unused.
      The two exclusion tables carry one slot past their last entry, because the
      searches read it when they run off the end. */
  datatype Config = Config(
    first: nat,               // FirstManagedRegister == FIRST_CMOS_REGISTER
    last: nat,                // LastManagedRegister == LAST_CMOS_REGISTER (inclusive)
    managedLow: nat,          // FIRST_MANAGED_CMOS_ADDRESS
    managedMax: nat,          // MAX_MANAGED_CMOS_ADDRESS (exclusive)
    tokens: seq<Token>,
    noChecksum: seq<nat>,
    unmanaged: seq<nat>,
    banks: seq<Bank>,
    checksumLow: Token,
    checksumHigh: Token,
    batteryBad: Token,
    checksumBad: Token,
    defaultsLoaded: Token,
    firstBoot: Token)

  /** The entries of an exclusion table, without slot 0 and the slot past the end. */
  function Entries(t: seq<nat>): seq<nat> {
    if |t| < 2 then [] else t[1..|t| - 1]
  }

  predicate Managed(c: Config, a: nat) { c.first <= a <= c.last }

  predicate NotChecksummed(c: Config, a: nat) { a in Entries(c.noChecksum) }

  predicate Unmanaged(c: Config, a: nat) { a in Entries(c.unmanaged) }

  predicate Excluded(c: Config, a: nat) { NotChecksummed(c, a) || Unmanaged(c, a) }

  /** The registers that the checksum protects. */
  predicate Summed(c: Config, a: nat) { Managed(c, a) && !Excluded(c, a) }

  predicate IsChecksumRegister(c: Config, a: nat) {
    a == c.checksumLow.address || a == c.checksumHigh.address
  }

  predicate IsStatusRegister(c: Config, a: nat) {
    || a == c.batteryBad.address || a == c.checksumBad.address
    || a == c.defaultsLoaded.address || a == c.firstBoot.address
  }

  predicate Covers(b: Bank, a: nat) { b.accessible && b.low <= a <= b.high }

  /** Some bank gives access to register `a`. */
  predicate Backed(c: Config, a: nat) {
    exists i :: 1 <= i < |c.banks| && Covers(c.banks[i], a)
  }

  predicate IsApiRegister(a: nat) { API_BYTE3 <= a < API_BYTE3 + 4 }

  // ---- What the generated tables promise ------------------------------------

  predicate SortedTable(t: seq<nat>) {
    && 2 <= |t| < 0x1_0000
    && forall i, j :: 1 <= i < j < |t| - 1 ==> t[i] <= t[j]
  }

  /** Register `a` is not confused with the slot past the end of a table. */
  predicate Searchable(c: Config, a: nat) {
    && |c.noChecksum| >= 2 && a != c.noChecksum[|c.noChecksum| - 1]
    && |c.unmanaged| >= 2 && a != c.unmanaged[|c.unmanaged| - 1]
  }

  predicate GoodRegister(c: Config, a: nat) { Backed(c, a) && Searchable(c, a) }

  predicate HasToken(c: Config, t: Token) {
    exists i :: 1 <= i < |c.tokens| && c.tokens[i] == t
  }

  predicate GoodToken(c: Config, t: Token) {
    && ProperField(t) && t.address < 512
    && GoodRegister(c, t.address)
    && (Managed(c, t.address) || Excluded(c, t.address))
  }

  /** The two checksum registers are distinct bytes of the managed range that the
      checksum does not cover. */
  predicate ChecksumLayout(c: Config) {
    && c.checksumLow.size == 8 && c.checksumLow.offset == 0
    && c.checksumHigh.size == 8 && c.checksumHigh.offset == 0
    && c.checksumLow.address != c.checksumHigh.address
    && Managed(c, c.checksumLow.address) && Excluded(c, c.checksumLow.address)
    && Managed(c, c.checksumHigh.address) && Excluded(c, c.checksumHigh.address)
  }

  predicate GoodStatusToken(c: Config, t: Token) {
    && ProperField(t) && Managed(c, t.address) && Unmanaged(c, t.address)
    && !IsChecksumRegister(c, t.address)
  }

  predicate StatusLayout(c: Config) {
    && GoodStatusToken(c, c.batteryBad) && GoodStatusToken(c, c.checksumBad)
    && GoodStatusToken(c, c.defaultsLoaded) && GoodStatusToken(c, c.firstBoot)
  }

  /** The managed range lies above the clock registers and below 256, and raw
      writes to it are refused. */
  predicate RangeLayout(c: Config) {
    DIAGNOSTIC_REGISTER < c.first && c.last <= 255 && c.managedLow <= c.first && c.last < c.managedMax
  }

  predicate ApiLayout(c: Config) {
    forall a :: API_BYTE3 <= a < API_BYTE3 + 4 ==>
      Excluded(c, a) && !IsChecksumRegister(c, a) && !IsStatusRegister(c, a)
  }

  predicate ClockLayout(c: Config) {
    !Summed(c, CENTURY_REGISTER) && !IsChecksumRegister(c, CENTURY_REGISTER)
  }

  predicate Layout(c: Config) { ChecksumLayout(c) && StatusLayout(c) && RangeLayout(c) }

  /** Every register that the manager addresses can be reached and looked up. */
  ghost predicate Addressable(c: Config) {
    && (forall a :: Managed(c, a) ==> GoodRegister(c, a))
    && (forall a :: IsApiRegister(a) ==> GoodRegister(c, a))
    && (forall a :: 0 <= a <= DIAGNOSTIC_REGISTER ==> Backed(c, a))
    && Backed(c, CENTURY_REGISTER)
  }

  ghost predicate TokensListed(c: Config) {
    && 1 <= |c.tokens| < 0x1_0000
    && (forall i :: 1 <= i < |c.tokens| ==> GoodToken(c, c.tokens[i]))
    && HasToken(c, c.checksumLow) && HasToken(c, c.checksumHigh)
    && HasToken(c, c.batteryBad) && HasToken(c, c.checksumBad)
    && HasToken(c, c.defaultsLoaded) && HasToken(c, c.firstBoot)
  }

  ghost predicate WellFormed(c: Config) {
    && 1 <= |c.banks| <= 255
    && SortedTable(c.noChecksum) && SortedTable(c.unmanaged)
    && Layout(c) && ApiLayout(c) && ClockLayout(c)
    && Addressable(c) && TokensListed(c)
  }

  /** The code holds the offset in bits 2..0, the register in bits 11..3 and the size in
      bits 15..12, lies above all raw register numbers, and unpacks to its token. */
  lemma TokenCodeRoundTrip(t: Token)
    requires ProperField(t) && t.address < 512
    ensures AllBits(t) % 8 == t.offset && AllBits(t) / 8 % 512 == t.address && AllBits(t) / 4096 == t.size
    ensures MIN_TOKEN_VALUE <= AllBits(t) < 0x1_0000 && TokenOf(AllBits(t)) == t
  {
    var code := AllBits(t);
    assert code == (t.size * 512 + t.address) * 8 + t.offset;
    assert code / 8 == t.size * 512 + t.address;
  }

  /** Every 16-bit code is the code of the token it unpacks to. */
  lemma CodeTokenRoundTrip(code: word)
    ensures AllBits(TokenOf(code)) == code
  {
    var q := code / 8;
    assert code == q * 8 + code % 8 && q == q / 512 * 512 + q % 512;
    assert q / 512 == code / 4096;
  }
}
