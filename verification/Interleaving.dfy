/** Two managers over one physical CMOS: DXE after its flush, and SMM.  Each has
    its own status word, and steps alternate only between whole operations. */
module Interleaving {
  import opened CmosTypes
  import opened CmosModel
  import opened Coherence
  import opened Runs

  /** The tables agree except for the slot past the end of an exclusion table. */
  predicate SameTables(c: Config, c': Config) {
    && c'.(noChecksum := c.noChecksum, unmanaged := c.unmanaged) == c
    && Entries(c'.noChecksum) == Entries(c.noChecksum) && Entries(c'.unmanaged) == Entries(c.unmanaged)
  }

  lemma SameTablesClassify(c: Config, c': Config, a: nat)
    requires SameTables(c, c')
    ensures Summed(c', a) <==> Summed(c, a)
    ensures NotChecksummed(c', a) <==> NotChecksummed(c, a)
    ensures Unmanaged(c', a) <==> Unmanaged(c, a)
    ensures Excluded(c', a) <==> Excluded(c, a)
    ensures IsChecksumRegister(c', a) <==> IsChecksumRegister(c, a)
  {
  }

  lemma {:induction false} SameTablesSum(s: State, s': State, n: nat)
    requires SameTables(s.cfg, s'.cfg)
    requires forall r: nat :: View(s', r) == View(s, r)
    ensures SumBelow(s', n) == SumBelow(s, n)
  {
    hide View;
    if n > 0 {
      SameTablesSum(s, s', n - 1);
      SameTablesClassify(s.cfg, s'.cfg, n - 1);
    }
  }

  /** Equal views over the same tables are equally coherent. */
  lemma SameViewSameCoherence(s: State, s': State)
    requires SameTables(s.cfg, s'.cfg)
    requires forall r: nat :: View(s', r) == View(s, r)
    ensures Coherent(s') <==> Coherent(s)
  {
    hide View;
    SameTablesSum(s, s', s.cfg.last + 1);
  }

  // ---- The pair ---------------------------------------------------------------------------

  datatype Pair = Pair(dxe: State, smm: State)

  datatype Move = Move(bySmm: bool, op: Op)

  function Turn(p: Pair, m: Move): (p': Pair)
    ensures p'.dxe.cfg == p.dxe.cfg && p'.smm.cfg == p.smm.cfg
  {
    if m.bySmm then
      var smm := Step(p.smm, m.op);
      Pair(p.dxe.(cells := smm.cells), smm)
    else
      var dxe := Step(p.dxe, m.op);
      Pair(dxe, p.smm.(cells := dxe.cells))
  }

  function Play(p: Pair, moves: seq<Move>): Pair
    decreases |moves|
  {
    if moves == [] then p else Play(Turn(p, moves[0]), moves[1..])
  }

  ghost predicate BothGood(p: Pair) {
    && Good(p.dxe) && Good(p.smm)
    && p.dxe.cells == p.smm.cells && SameTables(p.dxe.cfg, p.smm.cfg)
    && OptimalDefaultsEnabled !in p.dxe.status && OptimalDefaultsEnabled !in p.smm.status
  }

  /** With the buffer off the view is physical CMOS, whatever the status word. */
  lemma Shared(s: State, s': State)
    requires Good(s) && OptimalDefaultsEnabled !in s.status && SameTables(s.cfg, s'.cfg)
    requires Sound(s') && ForceNoChecksum !in s'.status && OptimalDefaultsEnabled !in s'.status
    requires s'.cells == s.cells
    ensures Good(s')
  {
    hide WellFormed, Steady;
    SameViewSameCoherence(s, s');
  }

  lemma StepLeavesBufferOff(s: State, op: Op)
    requires Good(s) && Safe(s.cfg, op) && OptimalDefaultsEnabled !in s.status
    ensures Good(Step(s, op)) && SameShape(s, Step(s, op)) && OptimalDefaultsEnabled !in Step(s, op).status
  {
    hide Sound, Step, Safe, Coherent;
    StepKeepsGood(s, op);
    assert OptimalDefaultsEnabled !in s.status * ROUTING;
  }

  lemma NewCellsSound(s: State, cells: seq<byte>)
    requires Sound(s) && |cells| == |s.cells|
    ensures Sound(s.(cells := cells))
  {
    hide WellFormed, Layout;
  }

  lemma SafeForBoth(c: Config, c': Config, op: Op)
    requires SameTables(c, c')
    ensures Safe(c', op) <==> Safe(c, op)
  {
    hide Entries, TokenOf;
  }

  lemma SameTablesSymmetric(c: Config, c': Config)
    requires SameTables(c, c')
    ensures SameTables(c', c)
  {
  }

  lemma TurnKeepsGood(p: Pair, m: Move)
    requires BothGood(p) && Safe(p.dxe.cfg, m.op)
    ensures BothGood(Turn(p, m))
  {
    hide Sound, Step, Safe, Coherent, SameTables;
    var p' := Turn(p, m);
    SafeForBoth(p.dxe.cfg, p.smm.cfg, m.op);
    SameTablesSymmetric(p.dxe.cfg, p.smm.cfg);
    if m.bySmm {
      StepLeavesBufferOff(p.smm, m.op);
      NewCellsSound(p.dxe, p'.smm.cells);
      Shared(p'.smm, p'.dxe);
    } else {
      StepLeavesBufferOff(p.dxe, m.op);
      NewCellsSound(p.smm, p'.dxe.cells);
      Shared(p'.dxe, p'.smm);
    }
  }

  /** Any interleaving of safe operations of the two managers keeps the shared
      CMOS coherent for both, because every update starts from the stored checksum. */
  lemma {:induction false} InterleavingKeepsCoherence(p: Pair, moves: seq<Move>)
    requires BothGood(p)
    requires forall m :: m in moves ==> Safe(p.dxe.cfg, m.op)
    ensures BothGood(Play(p, moves))
    decreases |moves|
  {
    hide BothGood, Turn, Safe;
    if moves != [] {
      TurnKeepsGood(p, moves[0]);
      InterleavingKeepsCoherence(Turn(p, moves[0]), moves[1..]);
    }
  }
}
