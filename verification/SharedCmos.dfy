/** Two manager objects over one array of CMOS cells: every interleaving of their
    methods has the effect that `Interleaving` describes on states. */
module SharedCmos {
  import opened CmosTypes
  import opened CmosModel
  import opened ApiPointer
  import opened Clock
  import opened Runs
  import opened Interleaving
  import opened SplitMode
  import opened CmosManager

  /** One client operation on the object. */
  method Perform(m: Manager, op: Op)
    requires m.Valid() && Safe(m.cfg, op)
    modifies m`status, m.cells, m.table, m.hob
    ensures m.Valid() && m.Model() == Step(old(m.Model()), op)
  {
    hide Manager.Valid, Manager.Model, Write, SetTime, SetClear, SaveApi, Recalculate;
    m.Fields();
    match op {
      case ReadOp(code, initial) =>
        var st, v := m.ReadCode(code, initial);
      case WriteOp(code, v) =>
        var st := m.WriteCode(code, v);
      case SetTimeOp(t) =>
        m.SetDateTime(t);
      case StatusOp(bits, on) =>
        assert OptimalDefaultsEnabled in ROUTING;
        m.SetClearStatus(bits, on);
      case SaveApiOp(p) =>
        var st := m.SaveApiPointer(p);
      case RecalculateOp =>
        var sum := m.CalculateChecksum();
    }
  }

  /** Two managers without a hand-off block that share their cells and nothing else. */
  ghost predicate Joint(m: Manager, o: Manager)
    reads m, o
  {
    m != o && m.cells == o.cells && m.table != o.table && m.hob == null && o.hob == null
  }

  /** An operation of one manager reaches the other only through the cells. */
  method PerformShared(m: Manager, o: Manager, op: Op)
    requires Joint(m, o) && m.Valid() && o.Valid() && Safe(m.cfg, op)
    modifies m`status, m.cells, m.table
    ensures Joint(m, o) && m.Valid() && o.Valid()
    ensures m.Model() == Step(old(m.Model()), op)
    ensures o.Model() == old(o.Model()).(cells := m.Model().cells)
  {
    hide Sound, Step, Safe;
    ghost var was := o.Model();
    Perform(m, op);
    NewCellsSound(was, m.cells[..]);
    assert o.Model() == was.(cells := m.cells[..]);
  }

  /** Any interleaving of the two objects is the interleaving of their states, so that
      both stay coherent, side by side on CMOS or with DXE in the buffer. */
  method Interleave(dxe: Manager, smm: Manager, moves: seq<Move>)
    requires Joint(dxe, smm) && dxe.Valid() && smm.Valid() && SameTables(dxe.cfg, smm.cfg)
    requires forall m :: m in moves ==> Safe(dxe.cfg, m.op)
    modifies dxe`status, smm`status, dxe.cells, dxe.table, smm.table
    ensures Joint(dxe, smm) && dxe.Valid() && smm.Valid()
    ensures Pair(dxe.Model(), smm.Model()) == Play(Pair(old(dxe.Model()), old(smm.Model())), moves)
    ensures old(BothGood(Pair(dxe.Model(), smm.Model()))) ==> BothGood(Pair(dxe.Model(), smm.Model()))
    ensures old(Split(Pair(dxe.Model(), smm.Model()))) ==> Split(Pair(dxe.Model(), smm.Model()))
  {
    hide Manager.Valid, Manager.Model, Step, Safe, BothGood, Split, SameTables, Good;
    ghost var p := Pair(dxe.Model(), smm.Model());
    dxe.Fields();
    if BothGood(p) { InterleavingKeepsCoherence(p, moves); }
    if Split(p) { SplitInterleaving(p, moves); }
    var i := 0;
    assert moves[0..] == moves;
    while i < |moves|
      invariant 0 <= i <= |moves|
      invariant Joint(dxe, smm) && dxe.Valid() && smm.Valid() && SameTables(dxe.cfg, smm.cfg)
      invariant Play(Pair(dxe.Model(), smm.Model()), moves[i..]) == Play(p, moves)
    {
      ghost var q := Pair(dxe.Model(), smm.Model());
      SafeForBoth(dxe.cfg, smm.cfg, moves[i].op);
      if moves[i].bySmm { PerformShared(smm, dxe, moves[i].op); } else { PerformShared(dxe, smm, moves[i].op); }
      assert Pair(dxe.Model(), smm.Model()) == Turn(q, moves[i]);
      assert moves[i..][1..] == moves[i + 1..];
      i := i + 1;
    }
  }
}
