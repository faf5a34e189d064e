/** The checksum invariant: what disturbs it, what keeps it, and why the 16-bit
    arithmetic never wraps. */
module Coherence {
  import opened CmosTypes
  import opened CmosModel

  lemma LayoutParts(c: Config)
    requires Layout(c)
    ensures RangeLayout(c) && ChecksumLayout(c) && StatusLayout(c)
  {
  }

  // ---- Cells ------------------------------------------------------------------

  lemma ManagedRegisterExists(s: State, a: nat)
    requires Fits(s) && Managed(s.cfg, a)
    ensures Exists(s, Reach(s, a))
  {
  }

  lemma ViewIsPeek(s: State, a: nat)
    ensures View(s, a) == Peek(s, Reach(s, a), 0)
  {
  }

  // ---- The sum --------------------------------------------------------------------

  /** Only the protected registers count. */
  lemma {:induction false} SumFrame(s: State, s': State, n: nat)
    requires s'.cfg == s.cfg
    requires forall r: nat :: r < n && Summed(s.cfg, r) ==> View(s', r) == View(s, r)
    ensures SumBelow(s', n) == SumBelow(s, n)
  {
    if n > 0 { SumFrame(s, s', n - 1); }
  }

  /** Changing one protected register changes the sum by the difference. */
  lemma {:induction false} SumChange(s: State, s': State, a: nat, n: nat)
    requires s'.cfg == s.cfg && Summed(s.cfg, a)
    requires forall r: nat :: r < n && r != a && Summed(s.cfg, r) ==> View(s', r) == View(s, r)
    ensures SumBelow(s', n) == SumBelow(s, n)
            + if a < n then View(s', a) - View(s, a) else 0
  {
    if n > 0 { SumChange(s, s', a, n - 1); }
  }

  lemma {:induction false} SumBound(s: State, n: nat)
    ensures SumBelow(s, n) <= 255 * (if n <= s.cfg.first then 0 else n - s.cfg.first)
  {
    if n > 0 { SumBound(s, n - 1); }
  }

  /** The full sum fits its 16-bit variable. */
  lemma SumFits(s: State)
    requires RangeLayout(s.cfg)
    ensures Sum(s) < 0x1_0000
  {
    SumBound(s, s.cfg.last + 1);
  }

  // ---- What leaves the checksum alone -----------------------------------------------

  ghost predicate SameShape(s: State, s': State) {
    && s'.cfg == s.cfg && |s'.cells| == |s.cells| && |s'.table| == |s.table| && s'.dxe == s.dxe
    && (s'.hob.Some? <==> s.hob.Some?)
  }

  ghost predicate SameRouting(s: State, s': State) { s'.status * ROUTING == s.status * ROUTING }

  /** Neither a protected register nor a checksum register moved, nor did the routing. */
  ghost predicate Undisturbed(s: State, s': State) {
    && SameShape(s, s') && SameRouting(s, s')
    && forall r :: Summed(s.cfg, r) || IsChecksumRegister(s.cfg, r) ==> View(s', r) == View(s, r)
  }

  lemma RoutingDecidesReach(s: State, s': State, a: nat)
    requires s'.cfg == s.cfg && SameRouting(s, s')
    ensures Reach(s', a) == Reach(s, a)
  {
    forall f | f in ROUTING ensures f in s'.status <==> f in s.status {
      assert f in s.status <==> f in s.status * ROUTING;
      assert f in s'.status <==> f in s'.status * ROUTING;
    }
  }

  lemma SteadinessKept(s: State, s': State)
    requires Steady(s) && SameShape(s, s') && SameRouting(s, s')
    ensures Steady(s')
  {
    assert OptimalDefaultsEnabled in s.status <==> OptimalDefaultsEnabled in s.status * ROUTING;
    assert OptimalDefaultsEnabled in s'.status <==> OptimalDefaultsEnabled in s'.status * ROUTING;
  }

  lemma UndisturbedKeepsChecksum(s: State, s': State)
    requires Undisturbed(s, s')
    ensures StoredChecksum(s') == StoredChecksum(s) && Sum(s') == Sum(s)
    ensures Coherent(s') <==> Coherent(s)
  {
    SumFrame(s, s', s.cfg.last + 1);
  }

  lemma UndisturbedTransitive(s: State, s': State, s'': State)
    requires Undisturbed(s, s') && Undisturbed(s', s'')
    ensures Undisturbed(s, s'')
  {
  }

  lemma FlipKeepsView(s: State, bits: Bitmap, on: bool, r: nat)
    requires bits !! ROUTING
    ensures View(Flip(s, bits, on), r) == View(s, r)
  {
  }

  lemma FlipUndisturbed(s: State, bits: Bitmap, on: bool)
    requires bits !! ROUTING
    ensures Undisturbed(s, Flip(s, bits, on))
  {
    hide View;
    forall r ensures View(Flip(s, bits, on), r) == View(s, r) { FlipKeepsView(s, bits, on, r); }
  }

  /** A cell that is neither protected nor part of the checksum may change. */
  lemma PokeUndisturbed(s: State, a: nat, c: Cell, v: byte)
    requires c == Reach(s, a) || c == Physical(a)
    requires !Summed(s.cfg, a) && !IsChecksumRegister(s.cfg, a)
    ensures Undisturbed(s, Poke(s, c, v))
  {
  }

  lemma ExcludedWriteUndisturbed(s: State, a: nat, c: Cell, after: byte)
    requires c == Reach(s, a) || c == Physical(a)
    requires Excluded(s.cfg, a) && !IsChecksumRegister(s.cfg, a)
    ensures Undisturbed(s, Replace(s, a, c, after))
  {
    PokeUndisturbed(s, a, c, after);
    FlipUndisturbed(Poke(s, c, after), {AddressIsChecksummed}, false);
  }

  // ---- Storing a checksum ---------------------------------------------------------

  lemma PokeChecksumView(s: State, w: word, r: nat)
    requires ChecksumLayout(s.cfg) && Fits(s)
    ensures View(PokeChecksum(NoteChecksum(s, w), w), r)
         == if r == s.cfg.checksumLow.address then w % 256
            else if r == s.cfg.checksumHigh.address then w / 256
            else View(s, r)
  {
    hide NotChecksummed, Unmanaged;
    ManagedRegisterExists(s, s.cfg.checksumLow.address);
    ManagedRegisterExists(s, s.cfg.checksumHigh.address);
  }

  lemma StoreChecksumEffect(s: State, w: word)
    requires ChecksumLayout(s.cfg) && Fits(s)
    ensures var s' := StoreChecksum(s, w);
      && StoredChecksum(s') == w
      && SameShape(s, s') && SameRouting(s, s')
      && s'.status == s.status - {ForceNoChecksum}
      && forall r :: !IsChecksumRegister(s.cfg, r) ==> View(s', r) == View(s, r)
  {
    hide View, NotChecksummed, Unmanaged, Reach;
    var s1 := PokeChecksum(NoteChecksum(s, w), w);
    forall r
      ensures View(StoreChecksum(s, w), r) == View(s1, r)
      ensures !IsChecksumRegister(s.cfg, r) ==> View(s1, r) == View(s, r)
    {
      PokeChecksumView(s, w, r);
      FlipKeepsView(s1, {ForceNoChecksum}, false, r);
    }
    PokeChecksumView(s, w, s.cfg.checksumLow.address);
    PokeChecksumView(s, w, s.cfg.checksumHigh.address);
  }

  /** Whatever the registers hold, storing their sum makes the view coherent. */
  lemma StoringTheSumIsCoherent(s: State)
    requires Steady(s)
    ensures Coherent(StoreChecksum(s, Sum(s) % 0x1_0000))
  {
    hide StoreChecksum, View;
    var s' := StoreChecksum(s, Sum(s) % 0x1_0000);
    StoreChecksumEffect(s, Sum(s) % 0x1_0000);
    SumFits(s);
    forall r: nat | Summed(s.cfg, r) ensures !IsChecksumRegister(s.cfg, r) {}
    SumFrame(s, s', s.cfg.last + 1);
  }

  // ---- Writing a register -----------------------------------------------------------

  lemma PokeView(s: State, a: nat, v: byte, r: nat)
    requires Fits(s) && Managed(s.cfg, a)
    ensures View(Poke(s, Reach(s, a), v), r) == if r == a then v else View(s, r)
  {
    ManagedRegisterExists(s, a);
  }

  lemma SumPoke(s: State, a: nat, v: byte)
    requires Fits(s) && Summed(s.cfg, a)
    ensures Sum(Poke(s, Reach(s, a), v)) == Sum(s) - View(s, a) + v
  {
    hide View, NotChecksummed, Unmanaged;
    var s' := Poke(s, Reach(s, a), v);
    forall r: nat ensures View(s', r) == if r == a then v else View(s, r) { PokeView(s, a, v, r); }
    SumChange(s, s', a, s.cfg.last + 1);
  }

  /** From a coherent state the incremental update is the true new sum: the
      subtraction does not go below zero and the addition does not wrap. */
  lemma IncrementalUpdateIsExact(s: State, a: nat, after: byte)
    requires RangeLayout(s.cfg) && Fits(s) && Coherent(s) && Summed(s.cfg, a)
    ensures var s' := Poke(s, Reach(s, a), after);
      && 0 <= StoredChecksum(s) - View(s, a)
      && StoredChecksum(s) - View(s, a) + after < 0x1_0000
      && UpdatedChecksum(StoredChecksum(s), View(s, a), after) == Sum(s')
  {
    hide View, NotChecksummed, Unmanaged;
    SumPoke(s, a, after);
    SumPoke(s, a, 0);
    SumFits(Poke(s, Reach(s, a), after));
  }

  lemma SummedWriteIsCoherent(s: State, a: nat, after: byte)
    requires Steady(s) && Coherent(s) && Summed(s.cfg, a)
    requires ForceNoChecksum !in s.status
    ensures Coherent(Replace(s, a, Reach(s, a), after))
  {
    hide View, NotChecksummed, Unmanaged;
    var s1 := Poke(s, Reach(s, a), after);
    var s2 := Flip(s1, {AddressIsChecksummed}, true);
    var w := UpdatedChecksum(StoredChecksum(s), View(s, a), after);
    ViewIsPeek(s, a);
    IncrementalUpdateIsExact(s, a, after);
    FlipUndisturbed(s1, {AddressIsChecksummed}, true);
    UndisturbedKeepsChecksum(s1, s2);
    SteadinessKept(s, s2);
    StoreChecksumEffect(s2, w);
    SumFrame(s2, StoreChecksum(s2, w), s.cfg.last + 1);
  }
}
