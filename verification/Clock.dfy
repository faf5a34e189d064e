/** The date and time registers, which bypass the router. */
module Clock {
  import opened CmosTypes
  import opened BitFields
  import opened CmosModel
  import opened Coherence

  datatype Time = Time(year: word, month: byte, day: byte, hour: byte, minute: byte, second: byte)

  const CONTROL_REGISTER: nat := 0xb
  const UPDATE_INHIBIT: Bits := 0x80

  function StopTime(s: State): State {
    BankWrite(s, CONTROL_REGISTER, SetBits(Cmos(s, CONTROL_REGISTER), UPDATE_INHIBIT))
  }

  function StartTime(s: State): State {
    BankWrite(s, CONTROL_REGISTER, ClearBits(Cmos(s, CONTROL_REGISTER), UPDATE_INHIBIT))
  }

  function WriteRtc(s: State, index: nat, d: byte): State { BankWrite(s, index, DecToBcd(d)) }

  function ReadRtc(s: State, index: nat): byte { BcdToDec(Cmos(s, index)) }

  function WriteTime(s: State, t: Time): State {
    var s1 := WriteRtc(s, CENTURY_REGISTER, t.year / 100 % 256);
    var s2 := WriteRtc(s1, 9, t.year % 100);
    var s3 := WriteRtc(s2, 8, t.month);
    var s4 := WriteRtc(s3, 7, t.day);
    var s5 := WriteRtc(s4, 4, t.hour);
    var s6 := WriteRtc(s5, 2, t.minute);
    WriteRtc(s6, 0, t.second)
  }

  /** CmosSetDateTime. */
  function SetTime(s: State, t: Time): State { StartTime(WriteTime(StopTime(s), t)) }

  /** CmosGetDateTime. */
  function GetTime(s: State): Time {
    Time(ReadRtc(s, CENTURY_REGISTER) * 100 + ReadRtc(s, 9), ReadRtc(s, 8), ReadRtc(s, 7),
         ReadRtc(s, 4), ReadRtc(s, 2), ReadRtc(s, 0))
  }

  predicate IsClockRegister(a: nat) { a <= DIAGNOSTIC_REGISTER || a == CENTURY_REGISTER }

  ghost predicate ClockBacked(s: State) {
    CENTURY_REGISTER < |s.cells| && forall a :: IsClockRegister(a) ==> Backed(s.cfg, a)
  }

  // ---- Round trip ---------------------------------------------------------------------

  lemma BankWriteCmos(s: State, a: nat, v: byte)
    requires ClockBacked(s) && IsClockRegister(a)
    ensures var s' := BankWrite(s, a, v);
      && ClockBacked(s') && s' == s.(cells := s.cells[a := v])
      && forall r :: Cmos(s', r) == if r == a then v else Cmos(s, r)
  {
    hide Backed;
  }

  const TIME_REGISTERS: set<nat> := {0, 2, 4, 7, 8, 9, 0x32}

  /** The bytes of the clock registers for a time. */
  predicate HoldsTime(s: State, t: Time) {
    && Cmos(s, 0x32) == DecToBcd(t.year / 100 % 256) && Cmos(s, 9) == DecToBcd(t.year % 100)
    && Cmos(s, 8) == DecToBcd(t.month) && Cmos(s, 7) == DecToBcd(t.day)
    && Cmos(s, 4) == DecToBcd(t.hour) && Cmos(s, 2) == DecToBcd(t.minute) && Cmos(s, 0) == DecToBcd(t.second)
  }

  /** Nothing but the given registers of physical CMOS changed. */
  ghost predicate OnlyCells(s: State, s': State, rs: set<nat>) {
    s' == s.(cells := s'.cells) && forall r: nat :: r !in rs ==> Cmos(s', r) == Cmos(s, r)
  }

  lemma WriteTimeCmos(s: State, t: Time)
    requires ClockBacked(s)
    ensures var s' := WriteTime(s, t);
      ClockBacked(s') && HoldsTime(s', t) && OnlyCells(s, s', TIME_REGISTERS)
  {
    hide DecToBcd, BankWrite, ClockBacked, Cmos;
    var s1 := WriteRtc(s, CENTURY_REGISTER, t.year / 100 % 256);
    var s2 := WriteRtc(s1, 9, t.year % 100);
    var s3 := WriteRtc(s2, 8, t.month);
    var s4 := WriteRtc(s3, 7, t.day);
    var s5 := WriteRtc(s4, 4, t.hour);
    var s6 := WriteRtc(s5, 2, t.minute);
    BankWriteCmos(s, CENTURY_REGISTER, DecToBcd(t.year / 100 % 256));
    BankWriteCmos(s1, 9, DecToBcd(t.year % 100));
    BankWriteCmos(s2, 8, DecToBcd(t.month));
    BankWriteCmos(s3, 7, DecToBcd(t.day));
    BankWriteCmos(s4, 4, DecToBcd(t.hour));
    BankWriteCmos(s5, 2, DecToBcd(t.minute));
    BankWriteCmos(s6, 0, DecToBcd(t.second));
  }

  /** Setting the time stores these bytes, and changes nothing else except the
      control register. */
  lemma SetTimeStores(s: State, t: Time)
    requires ClockBacked(s)
    ensures HoldsTime(SetTime(s, t), t) && OnlyCells(s, SetTime(s, t), TIME_REGISTERS + {0xb})
  {
    hide WriteTime, ClockBacked, DecToBcd, Cmos, BankWrite, SetBits, ClearBits;
    var s1 := StopTime(s);
    var s2 := WriteTime(s1, t);
    BankWriteCmos(s, CONTROL_REGISTER, SetBits(Cmos(s, CONTROL_REGISTER), UPDATE_INHIBIT));
    WriteTimeCmos(s1, t);
    BankWriteCmos(s2, CONTROL_REGISTER, ClearBits(Cmos(s2, CONTROL_REGISTER), UPDATE_INHIBIT));
  }

  /** The byte shows the two decimal digits of `d`. */
  predicate ShowsDigits(b: byte, d: nat) { b == 16 * (d / 10) + d % 10 }

  lemma DigitsOf(d: byte)
    requires d < 100
    ensures ShowsDigits(DecToBcd(d), d)
  {
    BcdDigits(d / 10, d % 10);
  }

  /** For the dates that the interface is documented for, each register shows the
      decimal digits of its field. */
  lemma SetTimeShowsDigits(s: State, t: Time)
    requires ClockBacked(s)
    requires t.year < 10000 && t.month < 100 && t.day < 100 && t.hour < 100 && t.minute < 100 && t.second < 100
    ensures var s' := SetTime(s, t);
      && ShowsDigits(Cmos(s', 0x32), t.year / 100) && ShowsDigits(Cmos(s', 9), t.year % 100)
      && ShowsDigits(Cmos(s', 8), t.month) && ShowsDigits(Cmos(s', 7), t.day)
      && ShowsDigits(Cmos(s', 4), t.hour) && ShowsDigits(Cmos(s', 2), t.minute)
      && ShowsDigits(Cmos(s', 0), t.second)
  {
    hide SetTime, ClockBacked, DecToBcd, Cmos, ShowsDigits, OnlyCells;
    SetTimeStores(s, t);
    assert t.year / 100 % 256 == t.year / 100;
    DigitsOf(t.year / 100);
    DigitsOf(t.year % 100);
    DigitsOf(t.month);
    DigitsOf(t.day);
    DigitsOf(t.hour);
    DigitsOf(t.minute);
    DigitsOf(t.second);
  }

  predicate Representable(t: Time) {
    t.year < 16000 && t.month < 160 && t.day < 160 && t.hour < 160 && t.minute < 160 && t.second < 160
  }

  lemma YearRoundTrip(year: word)
    ensures BcdToDec(DecToBcd(year / 100 % 256)) * 100 + BcdToDec(DecToBcd(year % 100)) == year
       <==> year < 16000
  {
    hide BcdToDec, DecToBcd;
    var century: byte := year / 100 % 256;
    BcdRoundTrip(century);
    BcdRoundTrip(year % 100);
    BcdIsSmall(DecToBcd(century));
  }

  lemma BcdIsSmall(b: byte)
    ensures BcdToDec(b) <= 165
  {
  }

  /** Setting and then reading the clock returns the same time exactly when the
      century fits and every field fits: years below 16000 and fields below 160. */
  lemma TimeRoundTripIff(s: State, t: Time)
    requires ClockBacked(s)
    ensures GetTime(SetTime(s, t)) == t <==> Representable(t)
  {
    hide SetTime, ClockBacked, DecToBcd, BcdToDec, Cmos, OnlyCells;
    SetTimeStores(s, t);
    YearRoundTrip(t.year);
    BcdRoundTrip(t.month);
    BcdRoundTrip(t.day);
    BcdRoundTrip(t.hour);
    BcdRoundTrip(t.minute);
    BcdRoundTrip(t.second);
  }

  /** The update-inhibit bit is set. */
  predicate Inhibited(s: State) { ToBits(Cmos(s, 0xb)) & 0x80 != 0 }

  lemma StopInhibits(s: State)
    requires ClockBacked(s)
    ensures Inhibited(StopTime(s))
  {
    hide ClockBacked, Cmos, BankWrite, Number;
    var b := Cmos(s, CONTROL_REGISTER);
    BankWriteCmos(s, CONTROL_REGISTER, SetBits(b, UPDATE_INHIBIT));
    NumberToBits(ToBits(b) | UPDATE_INHIBIT);
    InhibitIsSet(ToBits(b));
  }

  lemma InhibitIsSet(b: Bits)
    ensures (b | 0x80) & 0x80 != 0
  {
  }

  lemma InhibitBit(b: byte)
    ensures ClearBits(SetBits(b, UPDATE_INHIBIT), UPDATE_INHIBIT) == Masked(b, 0x7f)
  {
    hide Number;
    NumberToBits(ToBits(b) | UPDATE_INHIBIT);
    BitsOfInhibit(ToBits(b));
  }

  lemma BitsOfInhibit(b: Bits)
    ensures (b | 0x80) & !0x80 == b & 0x7f
  {
  }

  /** The clock runs again afterwards: the inhibit bit is clear and the other bits
      of the control register are as before. */
  lemma ClockRestarted(s: State, t: Time)
    requires ClockBacked(s)
    ensures Cmos(SetTime(s, t), CONTROL_REGISTER) == Masked(Cmos(s, CONTROL_REGISTER), 0x7f)
  {
    hide WriteTime, ClockBacked, Cmos, BankWrite, SetBits, ClearBits, Masked;
    var s1 := StopTime(s);
    var s2 := WriteTime(s1, t);
    BankWriteCmos(s, CONTROL_REGISTER, SetBits(Cmos(s, CONTROL_REGISTER), UPDATE_INHIBIT));
    WriteTimeCmos(s1, t);
    BankWriteCmos(s2, CONTROL_REGISTER, ClearBits(Cmos(s2, CONTROL_REGISTER), UPDATE_INHIBIT));
    InhibitBit(Cmos(s, CONTROL_REGISTER));
  }

  // ---- The checksum does not notice -------------------------------------------------------

  ghost predicate Unnoticed(s: State, s': State) {
    && Undisturbed(s, s') && s'.status == s.status && s'.hob == s.hob
    && SparesProtected(s, s')
  }

  /** No protected register and no checksum register changed in physical CMOS. */
  ghost predicate SparesProtected(s: State, s': State) {
    forall r: nat :: Summed(s.cfg, r) || IsChecksumRegister(s.cfg, r) ==> Cmos(s', r) == Cmos(s, r)
  }

  lemma UnnoticedTransitive(s: State, s': State, s'': State)
    requires Unnoticed(s, s') && Unnoticed(s', s'')
    ensures Unnoticed(s, s'')
  {
    hide View, Cmos, Summed;
    UndisturbedTransitive(s, s', s'');
  }

  lemma BankWriteUnnoticed(s: State, a: nat, v: byte)
    requires !Summed(s.cfg, a) && !IsChecksumRegister(s.cfg, a)
    ensures Unnoticed(s, BankWrite(s, a, v))
  {
    hide Backed;
    PokeUndisturbed(s, a, Physical(a), v);
  }

  lemma ClockRegistersUnnoticed(c: Config, a: nat)
    requires RangeLayout(c) && ChecksumLayout(c) && ClockLayout(c) && IsClockRegister(a)
    ensures !Summed(c, a) && !IsChecksumRegister(c, a)
  {
  }

  lemma WriteRtcUnnoticed(s0: State, s: State, index: nat, d: byte)
    requires ClockLayout(s.cfg) && RangeLayout(s.cfg) && ChecksumLayout(s.cfg) && IsClockRegister(index)
    requires Unnoticed(s0, s)
    ensures Unnoticed(s0, WriteRtc(s, index, d))
  {
    hide Summed, View, BankWrite, DecToBcd, Undisturbed, SparesProtected;
    SameConfig(s0, s);
    ClockRegistersUnnoticed(s.cfg, index);
    BankWriteUnnoticed(s, index, DecToBcd(d));
    UnnoticedTransitive(s0, s, WriteRtc(s, index, d));
  }

  lemma SetTimeUnnoticed(s: State, t: Time)
    requires RangeLayout(s.cfg) && ChecksumLayout(s.cfg) && ClockLayout(s.cfg)
    ensures Unnoticed(s, SetTime(s, t))
  {
    hide BankWrite, WriteRtc, Undisturbed, SparesProtected, Summed, IsChecksumRegister, SetBits, ClearBits;
    hide ClockLayout, RangeLayout, ChecksumLayout;
    var s0 := StopTime(s);
    var s1 := WriteRtc(s0, CENTURY_REGISTER, t.year / 100 % 256);
    var s2 := WriteRtc(s1, 9, t.year % 100);
    var s3 := WriteRtc(s2, 8, t.month);
    var s4 := WriteRtc(s3, 7, t.day);
    var s5 := WriteRtc(s4, 4, t.hour);
    var s6 := WriteRtc(s5, 2, t.minute);
    var s7 := WriteRtc(s6, 0, t.second);
    ClockRegistersUnnoticed(s.cfg, CONTROL_REGISTER);
    BankWriteUnnoticed(s, CONTROL_REGISTER, SetBits(Cmos(s, CONTROL_REGISTER), UPDATE_INHIBIT));
    SameConfig(s, s0);
    WriteRtcUnnoticed(s, s0, CENTURY_REGISTER, t.year / 100 % 256); SameConfig(s, s1);
    WriteRtcUnnoticed(s, s1, 9, t.year % 100); SameConfig(s, s2);
    WriteRtcUnnoticed(s, s2, 8, t.month); SameConfig(s, s3);
    WriteRtcUnnoticed(s, s3, 7, t.day); SameConfig(s, s4);
    WriteRtcUnnoticed(s, s4, 4, t.hour); SameConfig(s, s5);
    WriteRtcUnnoticed(s, s5, 2, t.minute); SameConfig(s, s6);
    WriteRtcUnnoticed(s, s6, 0, t.second); SameConfig(s, s7);
    BankWriteUnnoticed(s7, CONTROL_REGISTER, ClearBits(Cmos(s7, CONTROL_REGISTER), UPDATE_INHIBIT));
    UnnoticedTransitive(s, s7, SetTime(s, t));
  }

  lemma SameConfig(s: State, s': State)
    requires Unnoticed(s, s')
    ensures s'.cfg == s.cfg
  {
  }
}
