/** DXE stayed in buffer mode: its view is the buffer, and the view of SMM is physical
    CMOS.  Each manager keeps its own coherence whatever the other does. */
module SplitMode {
  import opened CmosTypes
  import opened BitFields
  import opened CmosModel
  import opened Coherence
  import opened TokenLaws
  import opened StatusUpdates
  import opened ApiPointer
  import opened Clock
  import opened Runs
  import opened Interleaving

  /** No register is routed to physical CMOS. */
  predicate WhollyBuffered(s: State) {
    OptimalDefaultsEnabled in s.status && !(IsUsable in s.status && RecoverOnlyChecksummed in s.status)
  }

  lemma WhollyBufferedKept(s: State, s': State)
    requires WhollyBuffered(s) && SameRouting(s, s')
    ensures WhollyBuffered(s')
  {
    forall f | f in ROUTING ensures f in s'.status <==> f in s.status {
      assert f in s.status <==> f in s.status * ROUTING;
      assert f in s'.status <==> f in s'.status * ROUTING;
    }
  }

  /** Such a view does not depend on physical CMOS. */
  lemma BufferIgnoresCells(s: State, cells: seq<byte>)
    requires Good(s) && WhollyBuffered(s) && |cells| == |s.cells|
    ensures Good(s.(cells := cells))
  {
    hide Sound, NotChecksummed;
    var s' := s.(cells := cells);
    forall r: nat ensures View(s', r) == View(s, r) {}
    hide View;
    NewCellsSound(s, cells);
    SumFrame(s, s', s.cfg.last + 1);
  }

  // ---- What a step needs no coherence for ----------------------------------------------------------

  /** Every safe step keeps the store's shape and the routing. */
  lemma StepShape(s: State, op: Op)
    requires Sound(s) && Safe(s.cfg, op)
    ensures SameShape(s, Step(s, op)) && SameRouting(s, Step(s, op)) && Sound(Step(s, op))
  {
    hide WellFormed, Layout, Steady, SetClear, SaveApi, SetTime, Write, NamesChecksum, Sum, StoredChecksum;
    WellFormedLayout(s.cfg);
    LayoutParts(s.cfg);
    match op {
      case ReadOp(_, _) =>
      case WriteOp(code, v) => WriteShape(s, code, v);
      case SetTimeOp(t) => SetTimeUnnoticed(s, t);
      case StatusOp(bits, on) => SetClearShape(s, bits, on);
      case SaveApiOp(p) =>
        assert IsApiRegister(API_BYTE3 + 3);
        BackedExists(s, API_BYTE3 + 3);
        SaveApiKeepsChecksum(s, p);
      case RecalculateOp => SetClearShape(s, {BadChecksum}, StoredChecksum(s) != Sum(s) % 0x1_0000);
    }
    SoundKept(s, Step(s, op));
  }

  lemma SetClearShape(s: State, bits: Bitmap, on: bool)
    requires Layout(s.cfg) && bits !! ROUTING
    ensures SameShape(s, SetClear(s, bits, on)) && SameRouting(s, SetClear(s, bits, on))
  {
    hide SetClear, Layout, View, Summed, IsStatusRegister;
    SetClearEffect(s, bits, on);
    var s' := SetClear(s, bits, on);
    forall f | f in ROUTING ensures f in s'.status <==> f in s.status { BitAfterSetClear(s, bits, on, f); }
  }

  lemma WriteShape(s: State, code: word, v: byte)
    ensures SameShape(s, Write(s, code, v).1) && SameRouting(s, Write(s, code, v).1)
  {
    hide Replace, TokenOf, Overflows, Merge, Encode, FieldMask, Reach, Backed, HasToken;
    match Decide(s, code, true)
    case Refuse(_) =>
    case Bank(_) =>
    case Field(t) =>
      var c := Reach(s, t.address);
      ReplaceShape(s, t.address, c, Merge(Peek(s, c, 0), FieldMask(t), Encode(v, t)));
  }

  // ---- What a buffered manager leaves alone -----------------------------------------------------------

  lemma BufferedWriteSpares(s: State, code: word, v: byte)
    requires Layout(s.cfg) && WhollyBuffered(s)
    ensures SparesProtected(s, Write(s, code, v).1)
  {
    hide TokenOf, Overflows, BankWrite, WriteField, Cmos, View, Backed, HasToken, NotChecksummed, Unmanaged;
    match Decide(s, code, true)
    case Refuse(_) =>
    case Bank(a) =>
      assert !Summed(s.cfg, a) && !IsChecksumRegister(s.cfg, a);
      BankWriteUnnoticed(s, a, v);
    case Field(t) => BufferedFieldCells(s, t, v);
  }

  lemma BufferedFieldCells(s: State, t: Token, v: byte)
    requires WhollyBuffered(s) && ProperField(t)
    ensures SparesProtected(s, WriteField(s, t, v))
  {
    hide Overflows, Merge, Encode, FieldMask, NotChecksummed, Unmanaged, StoredChecksum;
    assert WriteField(s, t, v).cells == s.cells;
  }

  lemma StatusSpares(s: State, bits: Bitmap, on: bool)
    requires Layout(s.cfg)
    ensures SparesProtected(s, SetClear(s, bits, on))
  {
    hide SetClear, Undisturbed, Layout, IsStatusRegister, NotChecksummed, Unmanaged;
    SetClearEffect(s, bits, on);
    forall r: nat | Summed(s.cfg, r) || IsChecksumRegister(s.cfg, r)
      ensures Cmos(SetClear(s, bits, on), r) == Cmos(s, r)
    {
      ProtectedIsNotStatus(s.cfg, r);
    }
  }

  lemma SaveApiSpares(s: State, p: pointer)
    requires ApiLayout(s.cfg) && API_BYTE3 + 4 <= |s.cells|
    ensures SparesProtected(s, SaveApi(s, p).1)
  {
    hide SaveFrom, ApiByte, Undisturbed, Cmos, NotChecksummed, Unmanaged, IsStatusRegister;
    SaveFromEffect(s, p, 0);
  }

  /** Nothing that a wholly buffered manager does reaches the protected registers of
      physical CMOS, nor the checksum there. */
  lemma BufferedStepSpares(s: State, op: Op)
    requires Sound(s) && WhollyBuffered(s) && Safe(s.cfg, op)
    ensures SparesProtected(s, Step(s, op))
  {
    hide WellFormed, Layout, Steady, SetClear, SaveApi, SetTime, Write, NamesChecksum, Sum, StoredChecksum;
    hide SparesProtected, WhollyBuffered;
    WellFormedLayout(s.cfg);
    LayoutParts(s.cfg);
    match op {
      case ReadOp(_, _) => SparesItself(s);
      case WriteOp(code, v) => BufferedWriteSpares(s, code, v);
      case SetTimeOp(t) => SetTimeUnnoticed(s, t);
      case StatusOp(bits, on) => StatusSpares(s, bits, on);
      case SaveApiOp(p) =>
        assert IsApiRegister(API_BYTE3 + 3);
        BackedExists(s, API_BYTE3 + 3);
        SaveApiSpares(s, p);
      case RecalculateOp => StatusSpares(s, {BadChecksum}, StoredChecksum(s) != Sum(s) % 0x1_0000);
    }
  }

  lemma SparesItself(s: State)
    ensures SparesProtected(s, s)
  {
  }

  // ---- The pair ---------------------------------------------------------------------------------------

  /** DXE works on the buffer and is coherent there; SMM works on physical CMOS, of
      which nothing is required. */
  ghost predicate Split(p: Pair) {
    && Good(p.dxe) && WhollyBuffered(p.dxe)
    && Sound(p.smm) && OptimalDefaultsEnabled !in p.smm.status
    && p.dxe.cells == p.smm.cells && SameTables(p.dxe.cfg, p.smm.cfg)
  }

  lemma SparedCellsKeepGood(smm: State, dxe: State, dxe': State)
    requires Good(smm) && OptimalDefaultsEnabled !in smm.status && SameTables(dxe.cfg, smm.cfg)
    requires dxe.cells == smm.cells && |dxe'.cells| == |dxe.cells| && SparesProtected(dxe, dxe')
    ensures Good(smm.(cells := dxe'.cells))
  {
    hide Sound, NotChecksummed, Unmanaged, SameTables;
    var smm' := smm.(cells := dxe'.cells);
    NewCellsSound(smm, dxe'.cells);
    forall r: nat | Summed(smm.cfg, r) || IsChecksumRegister(smm.cfg, r) ensures View(smm', r) == View(smm, r) {
      SameTablesClassify(dxe.cfg, smm.cfg, r);
      assert Cmos(dxe', r) == Cmos(dxe, r);
    }
    hide View;
    SumFrame(smm, smm', smm.cfg.last + 1);
  }

  lemma BufferStaysOff(s: State, s': State)
    requires SameRouting(s, s') && OptimalDefaultsEnabled !in s.status
    ensures OptimalDefaultsEnabled !in s'.status
  {
    assert OptimalDefaultsEnabled in s'.status <==> OptimalDefaultsEnabled in s'.status * ROUTING;
    assert OptimalDefaultsEnabled in s.status <==> OptimalDefaultsEnabled in s.status * ROUTING;
  }

  lemma TurnKeepsSplit(p: Pair, m: Move)
    requires Split(p) && Safe(p.dxe.cfg, m.op)
    ensures Split(Turn(p, m)) && (Good(p.smm) ==> Good(Turn(p, m).smm))
  {
    hide Sound, Step, Safe, Coherent, SameTables, WhollyBuffered, SparesProtected;
    var p' := Turn(p, m);
    SafeForBoth(p.dxe.cfg, p.smm.cfg, m.op);
    if m.bySmm {
      StepShape(p.smm, m.op);
      BufferStaysOff(p.smm, p'.smm);
      BufferIgnoresCells(p.dxe, p'.smm.cells);
      StatusDecides(p.dxe, p'.dxe);
      if Good(p.smm) { StepKeepsGood(p.smm, m.op); }
    } else {
      StepKeepsGood(p.dxe, m.op);
      WhollyBufferedKept(p.dxe, p'.dxe);
      BufferedStepSpares(p.dxe, m.op);
      NewCellsSound(p.smm, p'.dxe.cells);
      if Good(p.smm) { SparedCellsKeepGood(p.smm, p.dxe, p'.dxe); }
    }
  }

  lemma StatusDecides(s: State, s': State)
    requires s'.status == s.status
    ensures WhollyBuffered(s') <==> WhollyBuffered(s)
  {
  }

  /** Over every interleaving the buffered manager stays coherent in the buffer, and
      SMM stays coherent in physical CMOS if it was. */
  lemma {:induction false} SplitInterleaving(p: Pair, moves: seq<Move>)
    requires Split(p)
    requires forall m :: m in moves ==> Safe(p.dxe.cfg, m.op)
    ensures Split(Play(p, moves)) && (Good(p.smm) ==> Good(Play(p, moves).smm))
    decreases |moves|
  {
    hide Split, Turn, Safe, Good;
    if moves != [] {
      TurnKeepsSplit(p, moves[0]);
      SplitInterleaving(Turn(p, moves[0]), moves[1..]);
    }
  }
}
