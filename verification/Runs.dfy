/** Safety over whole runs of one manager, and of two managers that share the
    physical CMOS. */
module Runs {
  import opened CmosTypes
  import opened BitFields
  import opened CmosModel
  import opened Coherence
  import opened TokenLaws
  import opened StatusUpdates
  import opened Loader
  import opened Clock
  import opened ApiPointer

  datatype Op =
    | ReadOp(code: word, initial: byte)
    | WriteOp(code: word, v: byte)
    | SetTimeOp(time: Time)
    | StatusOp(bits: Bitmap, on: bool)
    | SaveApiOp(p: pointer)
    | RecalculateOp

  function Step(s: State, op: Op): (s': State)
    ensures s'.cfg == s.cfg
  {
    match op
    case ReadOp(_, _) => s
    case WriteOp(code, v) => Write(s, code, v).1
    case SetTimeOp(t) => SetTime(s, t)
    case StatusOp(bits, on) => SetClear(s, bits, on)
    case SaveApiOp(p) => SaveApi(s, p).1
    case RecalculateOp => Recalculate(s)
  }

  /** The code names a field of a checksum register. */
  predicate NamesChecksum(c: Config, code: word) {
    MIN_TOKEN_VALUE <= code && HasToken(c, TokenOf(code)) && IsChecksumRegister(c, TokenOf(code).address)
  }

  /** Clients do not write the checksum themselves, change the routing, or suspend
      checksum updating. */
  predicate Safe(c: Config, op: Op) {
    match op
    case WriteOp(code, _) => !NamesChecksum(c, code)
    case StatusOp(bits, on) => bits !! ROUTING && (on ==> ForceNoChecksum !in bits)
    case _ => true
  }

  /** What every operation keeps. */
  ghost predicate Good(s: State) {
    Sound(s) && ForceNoChecksum !in s.status && Coherent(s)
  }

  lemma SoundKept(s: State, s': State)
    requires Sound(s) && SameShape(s, s') && SameRouting(s, s')
    ensures Sound(s')
  {
    hide WellFormed, Layout;
    SteadinessKept(s, s');
  }

  lemma TokenFacts(c: Config, t: Token)
    requires WellFormed(c) && HasToken(c, t)
    ensures ProperField(t) && (Managed(c, t.address) || Excluded(c, t.address)) && Backed(c, t.address)
  {
    hide Layout, Addressable, ApiLayout, ClockLayout, Searchable, Backed, SortedTable;
  }

  lemma WellFormedLayout(c: Config)
    requires WellFormed(c)
    ensures Layout(c) && ApiLayout(c) && ClockLayout(c)
    ensures forall a :: IsApiRegister(a) || IsClockRegister(a) ==> Backed(c, a)
  {
    hide Layout, ApiLayout, ClockLayout, TokensListed, SortedTable, Backed, Searchable, Managed;
  }

  lemma BackedExists(s: State, a: nat)
    requires Sound(s) && Backed(s.cfg, a)
    ensures a < |s.cells|
  {
    hide WellFormed, Layout;
  }

  // ---- The client interface ----------------------------------------------------------------

  /** A write that is refused changes nothing. */
  lemma RefusedWriteChangesNothing(s: State, code: word, v: byte)
    requires Write(s, code, v).0 != Success
    ensures Write(s, code, v).1 == s
  {
    hide HasToken, TokenOf, Overflows, WriteRegister;
  }

  /** Any code, raw or token: a write that succeeds and has a place to go is what
      the next read returns. */
  lemma ClientRoundTrip(s: State, code: word, v: byte, initial: byte)
    requires Sound(s) && Write(s, code, v).0 == Success
    requires Decide(s, code, true).Field? ==> Reach(s, TokenOf(code).address) != Nowhere
    ensures Read(Write(s, code, v).1, code, initial) == (Success, v)
  {
    hide WellFormed, Layout, HasToken, TokenOf, Overflows, WriteField, ReadField, Backed, Sum;
    match Decide(s, code, true)
    case Refuse(_) => assert false;
    case Bank(a) => BackedExists(s, a);
    case Field(t) =>
      TokenFacts(s.cfg, t);
      BackedExists(s, t.address);
      ReachExists(s, t.address);
      WriteThenRead(s, t, v, initial);
      WriteFieldUsable(s, t, v);
  }

  lemma ReachExists(s: State, a: nat)
    requires Fits(s) && a < |s.cells| && Reach(s, a) != Nowhere
    ensures Exists(s, Reach(s, a))
  {
  }

  lemma WriteFieldUsable(s: State, t: Token, v: byte)
    requires ProperField(t)
    ensures IsUsable in WriteField(s, t, v).status <==> IsUsable in s.status
  {
    hide Replace, Overflows, Merge, Encode, FieldMask, Reach;
    var c := Reach(s, t.address);
    var after := Merge(Peek(s, c, 0), FieldMask(t), Encode(v, t));
    ReplaceShape(s, t.address, c, after);
    var s' := Replace(s, t.address, c, after);
    assert IsUsable in s'.status <==> IsUsable in s'.status - {AddressIsChecksummed};
    assert IsUsable in s.status <==> IsUsable in s.status - {AddressIsChecksummed};
  }

  // ---- One step --------------------------------------------------------------------------

  /** What a step promises about the invariant and about the hand-off block. */
  ghost predicate StepKeeps(s: State, s': State) {
    && SameShape(s, s') && SameRouting(s, s') && ForceNoChecksum !in s'.status
    && Coherent(s') && (HobInStep(s) ==> HobInStep(s'))
  }

  lemma UndisturbedStep(s: State, s': State)
    requires Coherent(s) && Undisturbed(s, s') && ForceNoChecksum !in s'.status
    requires HobInStep(s) ==> HobInStep(s')
    ensures StepKeeps(s, s')
  {
    UndisturbedKeepsChecksum(s, s');
  }

  lemma WriteFieldStep(s: State, t: Token, v: byte)
    requires Steady(s) && Coherent(s) && ForceNoChecksum !in s.status && ProperField(t)
    requires Managed(s.cfg, t.address) || Excluded(s.cfg, t.address)
    requires !IsChecksumRegister(s.cfg, t.address)
    ensures StepKeeps(s, WriteField(s, t, v))
  {
    hide View, Layout, Overflows, Merge, Encode, FieldMask, Summed, Excluded, Sum;
    if !Overflows(v, t) {
      var c := Reach(s, t.address);
      var after := Merge(Peek(s, c, 0), FieldMask(t), Encode(v, t));
      assert WriteField(s, t, v) == Replace(s, t.address, c, after);
      WriteKeepsCoherenceIff(s, t.address, after);
      ReplaceShape(s, t.address, c, after);
    }
  }

  lemma RawWriteStep(s: State, code: word, v: byte)
    requires Layout(s.cfg) && Coherent(s) && ForceNoChecksum !in s.status
    requires Decide(s, code, true) == Decision.Bank(code)
    ensures StepKeeps(s, BankWrite(s, code, v))
  {
    hide View, Backed, BankWrite;
    assert !Summed(s.cfg, code) && !IsChecksumRegister(s.cfg, code);
    BankWriteUnnoticed(s, code, v);
    UndisturbedStep(s, BankWrite(s, code, v));
  }

  lemma WriteStep(s: State, code: word, v: byte)
    requires Good(s) && !NamesChecksum(s.cfg, code)
    ensures StepKeeps(s, Write(s, code, v).1)
  {
    hide View, Layout, WellFormed, WriteField, BankWrite, Sum, TokenOf, Excluded, HasToken;
    match Decide(s, code, true)
    case Refuse(_) =>
    case Bank(a) => RawWriteStep(s, code, v);
    case Field(t) =>
      TokenFacts(s.cfg, t);
      WriteFieldStep(s, t, v);
  }

  lemma StatusStep(s: State, bits: Bitmap, on: bool)
    requires Steady(s) && Coherent(s) && ForceNoChecksum !in s.status
    requires bits !! ROUTING && (on ==> ForceNoChecksum !in bits)
    ensures StepKeeps(s, SetClear(s, bits, on))
  {
    hide View, Layout, SetClear, Sum;
    var s' := SetClear(s, bits, on);
    SetClearEffect(s, bits, on);
    BitAfterSetClear(s, bits, on, ForceNoChecksum);
    assert SameRouting(s, Assign(s, bits, on));
    SameStoreUndisturbed(s, s');
    UndisturbedStep(s, s');
  }

  /** Every safe step keeps the invariant, whatever the routing mode. */
  lemma StepKeepsGood(s: State, op: Op)
    requires Good(s) && Safe(s.cfg, op)
    ensures Good(Step(s, op)) && StepKeeps(s, Step(s, op))
  {
    hide View, Layout, WellFormed, Sum, Write, SetClear, SaveApi, SetTime, Recalculate;
    hide NamesChecksum, ApiLayout;
    WellFormedLayout(s.cfg);
    match op {
      case ReadOp(_, _) =>
      case WriteOp(code, v) => WriteStep(s, code, v);
      case SetTimeOp(t) =>
        LayoutParts(s.cfg);
        SetTimeUnnoticed(s, t);
        UndisturbedStep(s, SetTime(s, t));
      case StatusOp(bits, on) => StatusStep(s, bits, on);
      case SaveApiOp(p) =>
        assert IsApiRegister(API_BYTE3 + 3);
        BackedExists(s, API_BYTE3 + 3);
        SaveApiKeepsChecksum(s, p);
        assert ForceNoChecksum !in SaveApi(s, p).1.status - {AddressIsChecksummed};
        UndisturbedStep(s, SaveApi(s, p).1);
      case RecalculateOp =>
        RecalculateEffect(s);
        UndisturbedStep(s, Recalculate(s));
    }
    SoundKept(s, Step(s, op));
  }

  // ---- Whole runs -------------------------------------------------------------------------

  function Run(s: State, ops: seq<Op>): (s': State)
    decreases |ops|
  {
    if ops == [] then s else Run(Step(s, ops[0]), ops[1..])
  }

  /** Over every finite run of safe operations the stored checksum, read through
      the view, stays the sum of the protected registers, the routing stays, and a
      hand-off block that was in step stays in step. */
  lemma {:induction false} RunKeepsCoherence(s: State, ops: seq<Op>)
    requires Good(s)
    requires forall op :: op in ops ==> Safe(s.cfg, op)
    ensures Good(Run(s, ops)) && SameShape(s, Run(s, ops)) && SameRouting(s, Run(s, ops))
    ensures HobInStep(s) ==> HobInStep(Run(s, ops))
    decreases |ops|
  {
    hide Good, Step, Safe;
    if ops != [] {
      StepKeepsGood(s, ops[0]);
      hide Coherent;
      var s1 := Step(s, ops[0]);
      RunKeepsCoherence(s1, ops[1..]);
    }
  }
}
