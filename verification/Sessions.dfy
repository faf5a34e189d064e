/** Runs in which clients also load the defaults, turn the buffer on and flush it. */
module Sessions {
  import opened CmosTypes
  import opened CmosModel
  import opened Coherence
  import opened StatusUpdates
  import opened Loader
  import opened Runs
  import opened Boot
  import opened ApiPointer
  import opened EndToEnd

  datatype Act = Client(op: Op) | LoadAct | BufferOnAct | FlushAct

  function Do(s: State, act: Act): State {
    match act
    case Client(op) => Step(s, op)
    case LoadAct => Load(s).1
    case BufferOnAct => BufferOn(s)
    case FlushAct => Flush(s)
  }

  /** The checksum is kept in the same store as the registers it protects. */
  predicate ChecksumMovesAlong(s: State) {
    OptimalDefaultsEnabled in s.status ==>
      RoutesToBuffer(s, s.cfg.checksumLow.address) && RoutesToBuffer(s, s.cfg.checksumHigh.address)
  }

  /** The sum of the loader's entries for the protected registers below `n`. */
  function EntrySum(s: State, n: nat): nat {
    if n == 0 then 0 else EntrySum(s, n - 1) + if Summed(s.cfg, n - 1) then DefaultFor(s, n - 1) else 0
  }

  /** In buffer mode, each checksum byte that is kept in physical CMOS, where a load
      stores the sum of the entries it wrote, must be the same byte of both sums. */
  predicate LoadKeepsStoredSum(s: State) {
    OptimalDefaultsEnabled in s.status ==>
      var loaded := EntrySum(s, s.cfg.last + 1);
      && (RoutesToBuffer(s, s.cfg.checksumLow.address) || loaded % 256 == Sum(s) % 256)
      && (RoutesToBuffer(s, s.cfg.checksumHigh.address) || loaded / 256 == Sum(s) / 256)
  }

  /** Turning the buffer on needs a table that covers the range, and a load must not
      overwrite the checksum of a buffered view by another one. */
  predicate Permitted(s: State, act: Act) {
    match act
    case Client(op) => Safe(s.cfg, op) && Leaves(op, ErrorLoadingDefaults)
    case LoadAct => LoadKeepsStoredSum(s)
    case BufferOnAct => CoversRange(s)
    case FlushAct => true
  }

  function Session(s: State, acts: seq<Act>): State
    decreases |acts|
  {
    if acts == [] then s else Session(Do(s, acts[0]), acts[1..])
  }

  predicate AllPermitted(s: State, acts: seq<Act>)
    decreases |acts|
  {
    acts != [] ==> Permitted(s, acts[0]) && AllPermitted(Do(s, acts[0]), acts[1..])
  }

  /** A load in buffer mode writes physical CMOS only, so a view that keeps its
      checksum in the buffer does not notice. */
  lemma BufferedLoadUnnoticed(s: State)
    requires Steady(s) && ErrorLoadingDefaults !in s.status
    requires OptimalDefaultsEnabled in s.status && ChecksumMovesAlong(s)
    ensures Undisturbed(s, Load(s).1)
  {
    hide Load, FinishLoad, AfterLoop, Layout, NotChecksummed, Unmanaged, IsStatusRegister, SameStore, View;
    LoadStatus(s);
    LoadKeepsTable(s);
    var s' := Load(s).1;
    forall r | Summed(s.cfg, r) || IsChecksumRegister(s.cfg, r) ensures View(s', r) == View(s, r) {
      ProtectedIsNotStatus(s.cfg, r);
      RoutingDecidesReach(s, s', r);
      BufferedViewKept(s, FinishLoad(AfterLoop(s)), s', r);
    }
  }

  lemma BufferedViewKept(s: State, p: State, s': State, r: nat)
    requires SameStore(p, s') && p.table == s.table && p.cfg == s.cfg
    requires Managed(s.cfg, r) && !IsStatusRegister(s.cfg, r)
    requires RoutesToBuffer(s, r) && CoversRange(s) && Reach(s', r) == Reach(s, r)
    ensures View(s', r) == View(s, r)
  {
    hide NotChecksummed, IsStatusRegister;
  }

  // ---- Exactly when a load keeps the view coherent ---------------------------------------------------

  lemma {:induction false} FlushedSum(s: State, n: nat)
    requires Steady(s) && ErrorLoadingDefaults !in s.status && OptimalDefaultsEnabled in s.status
    ensures SumBelow(Flush(s), n) == EntrySum(s, n)
  {
    hide Flush, Layout, View, Summed, DefaultFor;
    FlushFits(s);
    if n > 0 {
      FlushedSum(s, n - 1);
      if Summed(s.cfg, n - 1) { FlushedRegister(s, n - 1); }
    }
  }

  /** After a load in buffer mode a checksum byte is the old one if the buffer holds
      it, and otherwise the one that goes with the entries written. */
  lemma ChecksumByteAfterLoad(s: State, a: nat)
    requires Steady(s) && ErrorLoadingDefaults !in s.status && OptimalDefaultsEnabled in s.status
    requires IsChecksumRegister(s.cfg, a)
    ensures View(Load(s).1, a) == if RoutesToBuffer(s, a) then View(s, a) else View(Flush(s), a)
  {
    hide Load, FinishLoad, AfterLoop, Layout, NotChecksummed, Unmanaged, IsStatusRegister, SameStore;
    LoadStatus(s);
    LoadKeepsTable(s);
    ProtectedIsNotStatus(s.cfg, a);
    RoutingDecidesReach(s, Load(s).1, a);
    if RoutesToBuffer(s, a) {
      BufferedViewKept(s, FinishLoad(AfterLoop(s)), Load(s).1, a);
    } else {
      BufferOffEffect(Load(s).1);
    }
  }

  lemma SumAfterLoad(s: State)
    requires Steady(s) && ErrorLoadingDefaults !in s.status && OptimalDefaultsEnabled in s.status
    ensures Sum(Load(s).1) == Sum(s)
  {
    hide Load, FinishLoad, AfterLoop, Layout, NotChecksummed, Unmanaged, IsStatusRegister, SameStore, View;
    LoadStatus(s);
    LoadKeepsTable(s);
    var s' := Load(s).1;
    forall r | Summed(s.cfg, r) ensures View(s', r) == View(s, r) {
      ProtectedIsNotStatus(s.cfg, r);
      RoutingDecidesReach(s, s', r);
      BufferedViewKept(s, FinishLoad(AfterLoop(s)), s', r);
    }
    SumFrame(s, s', s.cfg.last + 1);
  }

  lemma ChecksumBytesAfterLoad(s: State)
    requires Steady(s) && ErrorLoadingDefaults !in s.status && OptimalDefaultsEnabled in s.status && Coherent(s)
    ensures var low, high := s.cfg.checksumLow.address, s.cfg.checksumHigh.address;
            var loaded := EntrySum(s, s.cfg.last + 1);
      && Load(s).1.cfg == s.cfg
      && View(Load(s).1, low) == (if RoutesToBuffer(s, low) then Sum(s) % 256 else loaded % 256)
      && View(Load(s).1, high) == (if RoutesToBuffer(s, high) then Sum(s) / 256 else loaded / 256)
  {
    hide Load, Flush, Layout, View, Sum, RoutesToBuffer, EntrySum, Coherent;
    LoadIsCoherent(s);
    LoadStatus(s);
    FlushFits(s);
    SumOfFlush(s);
    ChecksumByteAfterLoad(s, s.cfg.checksumLow.address);
    ChecksumByteAfterLoad(s, s.cfg.checksumHigh.address);
    CoherentBytes(s);
    CoherentBytes(Flush(s));
  }

  /** From a coherent state a load ends coherent exactly when the buffer is off or the
      checksum bytes it overwrites agree. */
  lemma LoadCoherentIff(s: State)
    requires Steady(s) && ErrorLoadingDefaults !in s.status && Coherent(s)
    ensures Coherent(Load(s).1) <==> LoadKeepsStoredSum(s)
  {
    hide Load, Flush, Steady, View, Sum, RoutesToBuffer, EntrySum;
    if OptimalDefaultsEnabled in s.status {
      var low, high := s.cfg.checksumLow.address, s.cfg.checksumHigh.address;
      var s' := Load(s).1;
      SumAfterLoad(s);
      ChecksumBytesAfterLoad(s);
      MixedBytes(Sum(s), EntrySum(s, s.cfg.last + 1), RoutesToBuffer(s, low), RoutesToBuffer(s, high),
                 View(s', low), View(s', high));
    } else {
      LoadIsCoherent(s);
    }
  }

  lemma SumOfFlush(s: State)
    requires Steady(s) && ErrorLoadingDefaults !in s.status && OptimalDefaultsEnabled in s.status
    ensures Sum(Flush(s)) == EntrySum(s, s.cfg.last + 1)
  {
    hide Flush, Steady;
    FlushFits(s);
    FlushedSum(s, s.cfg.last + 1);
  }

  lemma CoherentBytes(s: State)
    requires Coherent(s)
    ensures View(s, s.cfg.checksumLow.address) == Sum(s) % 256
    ensures View(s, s.cfg.checksumHigh.address) == Sum(s) / 256
  {
    hide View, Sum;
  }

  /** A word whose bytes come from `w` or from `d`. */
  lemma MixedBytes(w: nat, d: nat, lowOfW: bool, highOfW: bool, low: byte, high: byte)
    requires low == if lowOfW then w % 256 else d % 256
    requires high == if highOfW then w / 256 else d / 256
    ensures high * 256 + low == w <==> (lowOfW || d % 256 == w % 256) && (highOfW || d / 256 == w / 256)
  {
    LastByte(high, low, w / 256, w % 256);
  }

  lemma LoadKeepsGood(s: State)
    requires Good(s) && ErrorLoadingDefaults !in s.status && LoadKeepsStoredSum(s)
    ensures Good(Load(s).1) && ErrorLoadingDefaults !in Load(s).1.status && HobInStep(Load(s).1)
  {
    hide Load, WellFormed, Steady, Coherent, LoadKeepsStoredSum;
    LoadStatus(s);
    LoadSucceeds(s);
    LoadCoherentIff(s);
    SoundBySteady(s, Load(s).1);
  }

  lemma FlushKeepsGood(s: State)
    requires Good(s) && ErrorLoadingDefaults !in s.status
    ensures Good(Flush(s)) && ErrorLoadingDefaults !in Flush(s).status && HobInStep(Flush(s))
  {
    hide Load, Flush, WellFormed, Steady, Coherent;
    LoadStatus(s);
    LoadSucceeds(s);
    LoadIsCoherent(s);
    FlushShape(s);
    SoundBySteady(s, Flush(s));
  }

  lemma BufferOnInStep(s: State)
    requires HobInStep(s)
    ensures HobInStep(BufferOn(s))
  {
    hide Sum, SetClear;
  }

  lemma BufferOnKeepsGood(s: State)
    requires Good(s) && ErrorLoadingDefaults !in s.status && CoversRange(s)
    ensures Good(BufferOn(s)) && ErrorLoadingDefaults !in BufferOn(s).status
  {
    hide BufferOn, WellFormed, Steady, Coherent, CoversRange;
    if OptimalDefaultsEnabled in s.status {
      AlreadyOn(s);
    } else {
      BufferOnIsCoherent(s);
      SoundBySteady(s, BufferOn(s));
    }
  }

  lemma AlreadyOn(s: State)
    requires OptimalDefaultsEnabled in s.status
    ensures BufferOn(s) == s
  {
    hide Recalculate;
  }

  /** Every permitted act keeps the invariant; only these acts change the routing. */
  lemma ActKeepsGood(s: State, act: Act)
    requires Good(s) && ErrorLoadingDefaults !in s.status && Permitted(s, act)
    ensures Good(Do(s, act)) && ErrorLoadingDefaults !in Do(s, act).status
    ensures HobInStep(s) ==> HobInStep(Do(s, act))
  {
    hide Good, Step, Load, BufferOn, Flush, Safe, CoversRange, LoadKeepsStoredSum;
    match act
    case Client(op) =>
      StepKeepsGood(s, op);
      StepLeavesBit(s, op, ErrorLoadingDefaults);
      hide Coherent;
    case LoadAct => LoadKeepsGood(s);
    case BufferOnAct =>
      BufferOnKeepsGood(s);
      if HobInStep(s) { BufferOnInStep(s); }
    case FlushAct => FlushKeepsGood(s);
  }

  /** Over every permitted session, through any number of loads, virtualizations and
      flushes, the view of the moment stays coherent, no loading error appears and a
      hand-off block in step stays in step. */
  lemma {:induction false} SessionKeepsGood(s: State, acts: seq<Act>)
    requires Good(s) && ErrorLoadingDefaults !in s.status && AllPermitted(s, acts)
    ensures Good(Session(s, acts)) && ErrorLoadingDefaults !in Session(s, acts).status
    ensures HobInStep(s) ==> HobInStep(Session(s, acts))
    decreases |acts|
  {
    hide Good, Do, Permitted;
    if acts != [] {
      ActKeepsGood(s, acts[0]);
      SessionKeepsGood(Do(s, acts[0]), acts[1..]);
    }
  }
}
