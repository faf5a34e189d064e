/** From PEI to DXE: the hand-off block carries status, tables and buffer, and the
    DXE manager starts from the same view. */
module HandOff {
  import opened CmosTypes
  import opened BitFields
  import opened CmosModel
  import opened Coherence
  import opened TokenLaws
  import opened StatusUpdates
  import opened Loader
  import opened ApiPointer
  import opened Runs
  import opened Interleaving
  import opened Boot

  /** A copied table: the entries are copied, the slot past them is not. */
  function Copied(t: seq<nat>, spare: nat): seq<nat> {
    if |t| == 0 then [] else t[..|t| - 1] + [spare]
  }

  /** CreateCmosDataHob: the manager works on the copies from here on. */
  function CreateHob(s: State, spare: nat, spare': nat): State {
    s.(hob := Some(HobState(s.status, s.checksum)),
       cfg := s.cfg.(noChecksum := Copied(s.cfg.noChecksum, spare), unmanaged := Copied(s.cfg.unmanaged, spare')))
  }

  /** CmosManagerAfterMemoryEntry. */
  function AfterMemory(s: State, p: pointer, spare: nat, spare': nat): State {
    CreateHob(SetClear(SaveApi(s, p).1, {ExecutingInMemory}, true), spare, spare')
  }

  /** InitializeCmosTablesFromHob: the DXE manager just after it took over. */
  function FromHob(s: State): State
    requires s.hob.Some?
  {
    State(s.cfg, s.hob.value.status, s.cells, s.table, None, s.hob.value.checksum, true)
  }

  // ---- Equal reads ----------------------------------------------------------------------------

  /** Same store, same status, same tables: clients cannot tell the managers apart. */
  ghost predicate Alike(s: State, s': State) {
    && SameTables(s.cfg, s'.cfg) && s'.status == s.status && s'.cells == s.cells && s'.table == s.table
  }

  lemma AlikeReads(s: State, s': State, code: word, initial: byte)
    requires Alike(s, s')
    ensures Read(s', code, initial) == Read(s, code, initial)
  {
    hide Decode, TokenOf, Entries;
    forall a: nat ensures Reach(s', a) == Reach(s, a) { SameTablesClassify(s.cfg, s'.cfg, a); }
  }

  lemma AlikeCoherence(s: State, s': State)
    requires Alike(s, s')
    ensures Coherent(s') <==> Coherent(s)
  {
    forall r: nat ensures View(s', r) == View(s, r) { SameTablesClassify(s.cfg, s'.cfg, r); }
    hide View;
    SameViewSameCoherence(s, s');
  }

  lemma CopiedEntries(t: seq<nat>, spare: nat)
    ensures Entries(Copied(t, spare)) == Entries(t)
  {
  }

  /** Creating the hand-off block changes no read and no coherence. */
  lemma HobCreationIsInvisible(s: State, spare: nat, spare': nat, code: word, initial: byte)
    ensures var s' := CreateHob(s, spare, spare');
      && HobInStep(s') && SameTables(s.cfg, s'.cfg)
      && Read(s', code, initial) == Read(s, code, initial)
      && (Coherent(s') <==> Coherent(s))
  {
    hide Read, Coherent, Entries, Copied;
    CopiedEntries(s.cfg.noChecksum, spare);
    CopiedEntries(s.cfg.unmanaged, spare');
    var s' := CreateHob(s, spare, spare');
    AlikeReads(s, s', code, initial);
    AlikeCoherence(s, s');
  }

  /** A block just created hands over everything that the manager has. */
  lemma BlockCarriesAll(s: State, spare: nat, spare': nat)
    ensures var d := FromHob(CreateHob(s, spare, spare'));
      && d.status == s.status && d.cells == s.cells && d.table == s.table && d.checksum == s.checksum
      && SameTables(s.cfg, d.cfg) && d.hob.None? && d.dxe
  {
    hide Entries, Copied;
    CopiedEntries(s.cfg.noChecksum, spare);
    CopiedEntries(s.cfg.unmanaged, spare');
  }

  /** A block that is in step hands over exactly the view that PEI has. */
  lemma HandOffKeepsReads(s: State, code: word, initial: byte)
    requires s.hob.Some? && HobInStep(s)
    ensures Read(FromHob(s), code, initial) == Read(s, code, initial)
    ensures Coherent(FromHob(s)) <==> Coherent(s)
  {
    hide Read, Coherent;
    assert Alike(s, FromHob(s));
    AlikeReads(s, FromHob(s), code, initial);
    AlikeCoherence(s, FromHob(s));
  }

  /** Whatever PEI does safely after the block exists, DXE takes over a coherent
      state in which every client read returns what PEI would have returned. */
  lemma HandOffAfterRun(s: State, ops: seq<Op>, code: word, initial: byte)
    requires Good(s) && s.hob.Some? && HobInStep(s)
    requires forall op :: op in ops ==> Safe(s.cfg, op)
    ensures var s' := Run(s, ops);
      && s'.hob.Some? && Coherent(FromHob(s'))
      && Read(FromHob(s'), code, initial) == Read(s', code, initial)
  {
    hide Run, Sound, Coherent, Safe, Read;
    RunKeepsCoherence(s, ops);
    HandOffKeepsReads(Run(s, ops), code, initial);
  }

  // ---- The entry after memory is found ---------------------------------------------------------------

  /** The new interface pointer is saved where CMOS is usable, nothing else changes in
      physical CMOS or the buffer, and the manager knows that it executes in memory. */
  lemma AfterMemoryEffect(s: State, p: pointer, spare: nat, spare': nat)
    requires ApiLayout(s.cfg) && API_BYTE3 + 4 <= |s.cells|
    ensures var s' := AfterMemory(s, p, spare, spare');
      && GetUpTo(s', 4) == (if IsUsable in s.status then p else GetUpTo(s, 4))
      && (forall a: nat :: !IsApiRegister(a) ==> Cmos(s', a) == Cmos(s, a))
      && s'.table == s.table && s'.checksum == s.checksum
      && s'.status - {AddressIsChecksummed} == s.status + {ExecutingInMemory} - {AddressIsChecksummed}
      && s'.cfg == s.cfg.(noChecksum := Copied(s.cfg.noChecksum, spare), unmanaged := Copied(s.cfg.unmanaged, spare'))
      && s'.hob == Some(HobState(s'.status, s'.checksum))
  {
    hide SetClear, ApiLayout, Copied, Coherent, Undisturbed, Cmos, SaveFrom, GetUpTo, ApiByte;
    var s1 := SaveApi(s, p).1;
    SaveApiKeepsChecksum(s, p);
    SaveFromEffect(s, p, 0);
    if IsUsable in s.status { ApiRoundTrip(s, p); }
    PlainSetClear(s1, {ExecutingInMemory}, true);
    var s' := AfterMemory(s, p, spare, spare');
    assert s'.cells == s1.cells;
    SamePointer(s1, s');
    CellsDecide(s1, s');
    assert s'.status - {AddressIsChecksummed} == (s1.status - {AddressIsChecksummed}) + {ExecutingInMemory};
  }

  lemma CellsDecide(s: State, s': State)
    requires s'.cells == s.cells
    ensures forall a: nat :: Cmos(s', a) == Cmos(s, a)
  {
  }

  // ---- DXE ----------------------------------------------------------------------------------------

  /** CmosManagerDxeEntry, from the state that the hand-off block provides.  The block
      also carries the bits of the entry checks: where these fail, DXE opens its
      manager and leaves it at that. */
  function DxeEntry(s: State, a: Answers, policy: Policy, installed: bool): State {
    var o := Open(s, a, policy);
    Conclude(if Flushes(o) then Flush(o) else o, Proceeds(o), installed)
  }

  /** What CmosManagerDxeEntry returns. */
  function DxeStatus(s: State, installed: bool): EfiStatus {
    if ValidInterface !in s.status then Unsupported
    else if InterfaceAlreadyInstalled in s.status || installed then Success
    else Unsupported
  }

  /** DXE will flush: the state handed over passes the entry checks, the buffer is on
      and the hooks find CMOS usable. */
  predicate WillFlush(s: State, a: Answers) {
    Proceeds(s) && OptimalDefaultsEnabled in s.status && UsableAfter(s, a)
  }

  lemma OpenForDxe(s: State, a: Answers, policy: Policy)
    requires Steady(s) && ErrorLoadingDefaults !in s.status
    ensures var o := Open(s, a, policy);
      && Steady(o) && SameShape(s, o) && SameStore(s, o) && ErrorLoadingDefaults !in o.status
      && (Flushes(o) <==> WillFlush(s, a)) && (Proceeds(o) <==> Proceeds(s))
      && (OptimalDefaultsEnabled in o.status <==> OptimalDefaultsEnabled in s.status)
  {
    hide Open, Layout, SameStore, UsableAfter;
    OpenDiagnoses(s, a, policy);
    OpenCalm(s, a, policy);
    OpenStatus(s, a, policy, IsUsable);
    OpenKeepsChecks(s, a, policy);
    assert ErrorLoadingDefaults in GUARDED && OptimalDefaultsEnabled in GUARDED;
  }

  /** DXE repairs only by flushing: it ends coherent exactly when the entry checks pass,
      the buffer is on and CMOS is found usable, or when the state handed over is coherent
      under the routing that the answers and the policy give.  It ends in buffer mode
      exactly when the buffer was on and was not flushed. */
  lemma DxeEntryCoherentIff(s: State, a: Answers, policy: Policy, installed: bool)
    requires Steady(s) && ErrorLoadingDefaults !in s.status
    ensures var s' := DxeEntry(s, a, policy, installed);
      && (Coherent(s') <==> WillFlush(s, a) || Coherent(Routed(s, a, policy)))
      && (OptimalDefaultsEnabled in s'.status <==> OptimalDefaultsEnabled in s.status && !WillFlush(s, a))
      && (ValidManager in s'.status <==> if Proceeds(s) then installed else ValidManager in s.status)
  {
    hide Open, Conclude, Flush, Load, Sum, View, Layout, UsableAfter, Routed, SameStore;
    var o := Open(s, a, policy);
    OpenForDxe(s, a, policy);
    OpenDiagnoses(s, a, policy);
    OpenFindsCoherence(s, a, policy);
    OpenStatus(s, a, policy, ValidManager);
    assert OptimalDefaultsEnabled in GUARDED;
    if Flushes(o) {
      LoadIsCoherent(o);
      FlushShape(o);
      ConcludeEffect(Flush(o), true, installed);
    } else {
      ConcludeEffect(o, Proceeds(o), installed);
    }
  }

  /** Protected registers do not move between the stores with the answers, so only
      the place of the stored checksum can change. */
  lemma RoutedSum(s: State, a: Answers, policy: Policy)
    ensures Sum(Routed(s, a, policy)) == Sum(s)
    ensures OptimalDefaultsEnabled !in s.status ==> StoredChecksum(Routed(s, a, policy)) == StoredChecksum(s)
  {
    hide NotChecksummed, Unmanaged, UsableAfter;
    SumFrame(s, Routed(s, a, policy), s.cfg.last + 1);
  }

  /** A coherent hand-off ends coherent in DXE exactly when DXE flushes or the stored
      checksum reads the same under the new routing. */
  lemma DxeKeepsCoherence(s: State, a: Answers, policy: Policy, installed: bool)
    requires Steady(s) && ErrorLoadingDefaults !in s.status && Coherent(s)
    ensures Coherent(DxeEntry(s, a, policy, installed)) <==>
      WillFlush(s, a) || StoredChecksum(Routed(s, a, policy)) == StoredChecksum(s)
  {
    hide Layout, DxeEntry, Routed, UsableAfter, Sum, StoredChecksum;
    RoutedSum(s, a, policy);
    DxeEntryCoherentIff(s, a, policy, installed);
  }

  /** DXE reports success exactly when its manager is installed, or was there before. */
  lemma DxeReports(s: State, a: Answers, policy: Policy, installed: bool)
    requires Steady(s) && ErrorLoadingDefaults !in s.status
    ensures DxeStatus(s, installed) == Success <==>
      && ValidInterface in s.status
      && (InterfaceAlreadyInstalled in s.status || ValidManager in DxeEntry(s, a, policy, installed).status)
    ensures DxeStatus(s, installed) in {Success, Unsupported}
  {
    hide DxeEntry, Steady, Coherent, UsableAfter;
    DxeEntryCoherentIff(s, a, policy, installed);
  }

  // ---- What clients see across the hand-off ----------------------------------------------------------

  /** Physical CMOS after DXE: the loader's entry where DXE flushes and the loader
      writes the register, and otherwise what PEI left. */
  lemma DxeEntryCell(s: State, a: Answers, policy: Policy, installed: bool, r: nat)
    requires Steady(s) && ErrorLoadingDefaults !in s.status
    requires r < |s.cells| && !Housekeeping(s.cfg, r)
    ensures var o := Open(s, a, policy);
      Cmos(DxeEntry(s, a, policy, installed), r)
      == if WillFlush(s, a) && Loads(BeginLoad(o), r) then DefaultFor(o, r) else Cmos(s, r)
  {
    hide Open, Conclude, Load, BeginLoad, Loads, DefaultFor, Layout, UsableAfter;
    var o := Open(s, a, policy);
    OpenForDxe(s, a, policy);
    if Flushes(o) {
      LoadedRegister(o, r);
      FlushShape(o);
      BufferOffEffect(Load(o).1);
      ConcludeEffect(Flush(o), true, installed);
    } else {
      ConcludeEffect(o, Proceeds(o), installed);
    }
  }

  /** The loader's slot for `r` is not the buffer's slot for a status register. */
  ghost predicate PlainSlot(c: Config, r: nat) {
    forall u: nat :: Managed(c, u) && IsStatusRegister(c, u) ==> BufferIndex(c, u) != DefaultIndex(c, r)
  }

  /** The entry that the loader has for a register in a plain slot is the one handed over. */
  lemma OpenKeepsDefault(s: State, a: Answers, policy: Policy, r: nat)
    requires Steady(s) && ErrorLoadingDefaults !in s.status && Managed(s.cfg, r)
    requires PlainSlot(s.cfg, r)
    ensures DefaultFor(Open(s, a, policy), r) == DefaultFor(s, r)
  {
    hide Open, Layout, IsStatusRegister, UsableAfter;
    OpenForDxe(s, a, policy);
    UnmanagedBelowBound(s.cfg, r);
    var u: nat := s.cfg.first + DefaultIndex(s.cfg, r) - 1;
    assert Managed(s.cfg, u) && BufferIndex(s.cfg, u) == DefaultIndex(s.cfg, r);
  }

  /** A protected register in DXE, seen through the view. */
  lemma DxeEntryView(s: State, a: Answers, policy: Policy, installed: bool, r: nat)
    requires Steady(s) && ErrorLoadingDefaults !in s.status && Summed(s.cfg, r)
    ensures View(DxeEntry(s, a, policy, installed), r)
         == if WillFlush(s, a) then DefaultFor(Open(s, a, policy), r) else View(s, r)
  {
    hide Open, Conclude, Flush, Load, DefaultFor, Layout, UsableAfter, IsStatusRegister, NotChecksummed, Unmanaged;
    var o := Open(s, a, policy);
    OpenForDxe(s, a, policy);
    SummedIsData(s.cfg, r);
    if Flushes(o) {
      FlushedRegister(o, r);
      FlushFits(o);
      ConcludeEffect(Flush(o), true, installed);
    } else {
      ConcludeEffect(o, Proceeds(o), installed);
    }
  }

  /** A protected token with no unmanaged register below it reads the same in PEI
      before the hand-off and in DXE after its entry, whatever the hooks answer. */
  lemma TokenSurvivesHandOff(s: State, t: Token, initial: byte, a: Answers, policy: Policy, installed: bool)
    requires Steady(s) && ErrorLoadingDefaults !in s.status && s.hob.Some? && HobInStep(s)
    requires ProperField(t) && Summed(s.cfg, t.address)
    requires forall u: nat :: s.cfg.first <= u < t.address ==> !Unmanaged(s.cfg, u)
    ensures ReadField(DxeEntry(FromHob(s), a, policy, installed), t, initial) == ReadField(s, t, initial)
  {
    hide Open, DxeEntry, Layout, UsableAfter, Unmanaged, Decode, View, Reach, SameStore, DefaultFor;
    var d := FromHob(s);
    var d' := DxeEntry(d, a, policy, installed);
    SummedIsData(s.cfg, t.address);
    SlotsAgreeIff(s.cfg, t.address);
    FromHobView(s, t.address);
    DxeEntryView(d, a, policy, installed, t.address);
    if WillFlush(d, a) {
      BufferShowsDefault(d, a, policy, t.address);
    }
    DxeEntryFits(d, a, policy, installed);
    ManagedRegisterExists(s, t.address);
    ManagedRegisterExists(d', t.address);
    ReadFieldIsView(s, t, initial);
    ReadFieldIsView(d', t, initial);
  }

  lemma FromHobView(s: State, r: nat)
    requires Steady(s) && s.hob.Some? && HobInStep(s)
    ensures Steady(FromHob(s)) && FromHob(s).status == s.status && View(FromHob(s), r) == View(s, r)
  {
    hide Layout;
  }

  /** Where the slots agree, the loader's entry for a protected register is what the
      buffer shows. */
  lemma BufferShowsDefault(s: State, a: Answers, policy: Policy, r: nat)
    requires Steady(s) && ErrorLoadingDefaults !in s.status && OptimalDefaultsEnabled in s.status
    requires Summed(s.cfg, r) && DefaultIndex(s.cfg, r) == BufferIndex(s.cfg, r)
    ensures DefaultFor(Open(s, a, policy), r) == View(s, r)
  {
    hide Open, Layout, Load, Flush, NotChecksummed, Unmanaged;
    SummedIsData(s.cfg, r);
    FlushedRegister(s, r);
    OpenKeepsDefault(s, a, policy, r);
  }

  lemma DxeEntryFits(s: State, a: Answers, policy: Policy, installed: bool)
    requires Steady(s) && ErrorLoadingDefaults !in s.status
    ensures var s' := DxeEntry(s, a, policy, installed);
      SameShape(s, s') && Steady(s')
  {
    hide Open, Conclude, Flush, Layout, UsableAfter, SameStore;
    var o := Open(s, a, policy);
    OpenForDxe(s, a, policy);
    if Flushes(o) { FlushShape(o); }
    var o' := if Flushes(o) then Flush(o) else o;
    ConcludeEffect(o', Proceeds(o), installed);
    GuardedSteady(o', Conclude(o', Proceeds(o), installed));
  }
}
