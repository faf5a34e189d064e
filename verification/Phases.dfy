/** The phase drivers, which call the manager step by step: opening a manager, the
    PEI entry, the entry after memory is found, the DXE entry, and the SMI handler. */
module Phases {
  import opened CmosTypes
  import opened CmosModel
  import opened Coherence
  import opened StatusUpdates
  import opened Loader
  import opened ApiPointer
  import opened Runs
  import opened Boot
  import opened HandOff
  import opened EndToEnd
  import opened Refinement
  import opened CmosManager

  // ---- NewCmosManagerInterface ---------------------------------------------------------------

  method AskUsableHooks(m: Manager, answers: seq<bool>)
    requires m.Valid()
    modifies m`status, m.cells, m.table, m.hob
    ensures m.Valid() && m.Model() == AskUsable(old(m.Model()), answers)
  {
    hide Manager.Valid, Manager.Model, SetClear;
    ghost var s := m.Model();
    var i := 0;
    assert answers[0..] == answers;
    while i < |answers|
      invariant 0 <= i <= |answers| && m.Valid()
      invariant AskUsable(m.Model(), answers[i..]) == AskUsable(s, answers)
    {
      m.SetClearStatus({IsUsable}, answers[i]);
      assert answers[i..][1..] == answers[i + 1..];
      i := i + 1;
    }
  }

  method AskHooks(m: Manager, answers: seq<bool>, f: Flag)
    requires m.Valid() && f != OptimalDefaultsEnabled
    modifies m`status, m.cells, m.table, m.hob
    ensures m.Valid() && m.Model() == Ask(old(m.Model()), answers, f)
  {
    hide Manager.Valid, Manager.Model, SetClear;
    ghost var s := m.Model();
    var i := 0;
    assert answers[0..] == answers;
    while i < |answers|
      invariant 0 <= i <= |answers| && m.Valid()
      invariant Ask(m.Model(), answers[i..], f) == Ask(s, answers, f)
    {
      if answers[i] { m.SetClearStatus({f}, true); }
      assert answers[i..][1..] == answers[i + 1..];
      i := i + 1;
    }
  }

  /** UpdateBatteryStatus: the last hook decides; without hooks the battery is bad. */
  method UpdateBatteryStatus(m: Manager, answers: seq<bool>)
    requires m.Valid()
    modifies m`status, m.cells, m.table, m.hob
    ensures m.Valid() && m.Model() == SetClear(old(m.Model()), {BadBattery}, !LastSaysYes(answers))
  {
    hide Manager.Valid, Manager.Model, SetClear;
    var good, i := false, 0;
    while i < |answers|
      modifies {}
      invariant 0 <= i <= |answers|
      invariant good <==> i > 0 && answers[i - 1]
    {
      good := answers[i];
      i := i + 1;
    }
    m.SetClearStatus({BadBattery}, !good);
  }

  method OpenManager(m: Manager, a: Answers, policy: Policy)
    requires m.Valid()
    modifies m`status, m`checksum, m.cells, m.table, m.hob
    ensures m.Valid() && m.Model() == Open(old(m.Model()), a, policy)
  {
    hide Manager.Valid, Manager.Model, SetClear, AskUsable, Ask, Recalculate, Sum, LastSaysYes;
    AskUsableHooks(m, a.usable);
    AskHooks(m, a.firstBoot, FirstBootDetected);
    AskHooks(m, a.coldBoot, ColdBootDetected);
    AskHooks(m, a.bsp, BspIsExecuting);
    if policy.onlyChecksummed { m.SetClearStatus({RecoverOnlyChecksummed}, true); }
    if policy.inPei { m.SetClearStatus({RecoverInPei}, true); }
    var sum := m.CalculateChecksum();
    m.KeepChecksum(sum);
    UpdateBatteryStatus(m, a.batteryGood);
  }

  method InstallInterface(m: Manager, installed: bool)
    requires m.Valid()
    modifies m`status, m.cells, m.table, m.hob
    ensures m.Valid() && m.Model() == Install(old(m.Model()), installed)
  {
    hide Manager.Valid, Manager.Model, SetClear;
    if installed {
      m.SetClearStatus({ValidManager}, true);
    } else {
      m.SetClearStatus({InstallFailed}, true);
      m.SetClearStatus({ValidManager}, false);
    }
  }

  // ---- CmosManagerPeiEntry -------------------------------------------------------------------------

  method PrepareInPei(m: Manager, p: pointer)
    requires m.Valid()
    modifies m`status, m.cells, m.table, m.hob
    ensures m.Valid() && m.Model() == Prepare(old(m.Model()), p)
  {
    hide Manager.Valid, Manager.Model, Load, SaveApi;
    m.Fields();
    if {IsUsable, BspIsExecuting} <= m.status {
      var st;
      if {FirstBootDetected, ColdBootDetected} <= m.status { st := m.LoadOptimalDefaults(); }
      st := m.SaveApiPointer(p);
    }
  }

  method SettleInPei(m: Manager)
    requires m.Valid() && (m.hob != null ==> ExecutingInMemory in m.status)
    requires Virtualizes(m.Model()) ==> m.cfg.last + 1 < m.table.Length + m.cfg.first
    modifies m`status, m`table, m`checksum, m.cells, m.table, m.hob
    ensures m.Valid() && m.Model() == Settle(old(m.Model())) && (m.table == old(m.table) || fresh(m.table))
    ensures ExecutingInMemory in old(m.status) ==> m.table == old(m.table)
    ensures {OptimalDefaultsEnabled, ExecutingInMemory, ErrorLoadingDefaults} !! old(m.status) ==>
      old(m.table)[..] == old(m.table[..])
  {
    hide Manager.Valid, Manager.Model, Load, BufferOn, BufferOff, CoversRange, Sound, Steady;
    m.Fields();
    m.CoverMeaning();
    var st;
    if m.status * {BadChecksum, BadBattery} != {} {
      if {IsUsable, RecoverInPei} <= m.status {
        ghost var s := m.Model();
        m.Facts();
        SoundLayout(s);
        m.TableField();
        if {OptimalDefaultsEnabled, ErrorLoadingDefaults} !! s.status { FlushKeepsTable(s); }
        st := m.LoadOptimalDefaults();
        st := TurnOff(m);
        m.TableField();
      } else {
        st := m.ConfigureManager(true, false);
      }
    }
  }

  /** CMOS_OPTIMAL_DEFAULTS_OFF. */
  method TurnOff(m: Manager) returns (st: EfiStatus)
    requires m.Valid()
    modifies m`status, m.cells, m.table, m.hob
    ensures m.Valid() && st == Success && m.Model() == BufferOff(old(m.Model()))
  {
    hide Manager.Valid, Manager.Model, SetClear;
    m.SetClearStatus({OptimalDefaultsEnabled}, false);
    return Success;
  }

  /** Power-on to the end of the PEI entry, from arbitrary contents of CMOS and
      arbitrary hook answers.  The manager is new, so the entry checks pass.  A table
      in read-only memory is never written: the buffer is then a copy of it. */
  method PeiBoot(cfg: Config, cells: array<byte>, defaults: array<byte>, inMemory: bool,
                 a: Answers, policy: Policy, p: pointer, installed: bool)
    returns (m: Manager, st: EfiStatus)
    requires cells != defaults
    requires TableSuffices(NewPei(cfg, cells[..], defaults[..], inMemory), a, policy)
    requires Sound(State(cfg, {ValidInterface}, cells[..], defaults[..], None, 0, false))
    modifies cells, defaults
    ensures m.Valid() && m.cells == cells && m.hob == null
    ensures m.Model() == PeiEntry(NewPei(cfg, old(cells[..]), old(defaults[..]), inMemory), a, policy, p, installed)
    ensures Coherent(m.Model()) && ForceNoChecksum !in m.status && ErrorLoadingDefaults !in m.status
    ensures if inMemory then m.table == defaults else defaults[..] == old(defaults[..])
    ensures st == if installed then Success else Unsupported
  {
    hide Manager.Valid, Manager.Model, Sound, SetClear, Open, Prepare, Settle, Install, Layout;
    hide ApiLayout, Coherent, Undisturbed, Guarded, WillVirtualize, Virtualizes;
    ghost var s := NewPei(cfg, cells[..], defaults[..], inMemory);
    PeiFacts(cfg, cells[..], defaults[..], inMemory);
    VirtualizesIff(s, a, policy, p);
    OpenKeepsChecks(s, a, policy);
    PeiBootIsCoherent(cfg, cells[..], defaults[..], inMemory, a, policy, p, installed);
    TableBeforeDecision(cfg, cells[..], defaults[..], inMemory, a, policy, p);
    m := new Manager(cfg, cells, defaults, false);
    m.SetClearStatus({ExecutingInMemory}, inMemory);
    OpenManager(m, a, policy);
    PrepareInPei(m, p);
    m.Fields();
    m.TableField();
    SettleInPei(m);
    m.TableField();
    InstallEffect(m.Model(), installed);
    InstallInterface(m, installed);
    m.Fields();
    m.TableField();
    st := if ValidManager in m.status then Success else Unsupported;
  }

  lemma PeiFacts(cfg: Config, cells: seq<byte>, defaults: seq<byte>, inMemory: bool)
    requires Sound(State(cfg, {ValidInterface}, cells, defaults, None, 0, false))
    ensures var s := NewPei(cfg, cells, defaults, inMemory);
      && s.cfg == cfg && s.cells == cells
      && Steady(s) && Proceeds(s) && s.status !! GUARDED && (CoversRange(s) <==> cfg.last + 1 < |defaults| + cfg.first)
    ensures ApiLayout(cfg) && API_BYTE3 + 4 <= |cells|
  {
    hide WellFormed, Layout, ApiLayout, NewPei;
    NewPeiEffect(cfg, cells, defaults, inMemory);
    WellFormedLayout(cfg);
    assert IsApiRegister(API_BYTE3 + 3);
    BackedExists(State(cfg, {ValidInterface}, cells, defaults, None, 0, false), API_BYTE3 + 3);
  }

  /** An entry point of any phase that finds the manager already there. */
  method LaterEntry(m: Manager) returns (st: EfiStatus)
    requires m.Valid()
    modifies m`status, m.cells, m.table, m.hob
    ensures m.Valid() && (st, m.Model()) == EnterAgain(old(m.Model()))
  {
    hide Manager.Valid, Manager.Model, SetClear;
    m.SetClearStatus({InterfaceAlreadyInstalled}, true);
    m.Fields();
    st := if ValidInterface in m.status then Success else Unsupported;
  }

  // ---- CmosManagerAfterMemoryEntry and the hand-off ---------------------------------------------------

  method AfterMemoryEntry(m: Manager, p: pointer, spare: nat, spare': nat)
    requires m.Valid() && GoodSpare(m.cfg, spare) && GoodSpare(m.cfg, spare')
    modifies m`status, m`hob, m`cfg, m`table, m.cells, m.table, m.hob
    ensures m.Valid() && m.hob != null && m.hob.table == m.table && fresh(m.table)
    ensures m.Model() == AfterMemory(old(m.Model()), p, spare, spare') && HobInStep(m.Model())
  {
    hide Manager.Valid, Manager.Model, SaveApi, SetClear, GoodSpare, Copied;
    var st := m.SaveApiPointer(p);
    m.SetClearStatus({ExecutingInMemory}, true);
    m.CreateDataHob(spare, spare');
  }

  /** DXE takes the block over while PEI's view is still in it: the new manager is
      the old one as clients see it, on the same buffer. */
  method DxeTakesOver(pei: Manager) returns (m: Manager)
    requires pei.Valid() && pei.hob != null && HobInStep(pei.Model())
    ensures m.Valid() && m.Model() == FromHob(pei.Model()) && m.table == pei.table && m.cells == pei.cells
    ensures forall code: word, initial: byte ::
      Read(m.Model(), code, initial) == Read(pei.Model(), code, initial)
    ensures Coherent(m.Model()) <==> Coherent(pei.Model())
  {
    hide Sound, Read, Coherent;
    FromHobIsSound(pei.Model());
    m := new Manager.TakeOver(pei.hob, pei.cells);
    forall code: word, initial: byte
      ensures Read(m.Model(), code, initial) == Read(pei.Model(), code, initial)
    {
      HandOffKeepsReads(pei.Model(), code, initial);
    }
    HandOffKeepsReads(pei.Model(), 0, 0);
  }

  // ---- CmosManagerDxeEntry ---------------------------------------------------------------------------------

  /** The part of the entry after its two checks: flush, stop using the buffer, install. */
  method FlushAndInstall(m: Manager, installed: bool) returns (st: EfiStatus)
    requires m.Valid() && ErrorLoadingDefaults !in m.status && Proceeds(m.Model())
    modifies m`status, m.cells, m.table, m.hob
    ensures m.Valid()
    ensures m.Model() == Install(if Flushes(old(m.Model())) then Flush(old(m.Model())) else old(m.Model()), installed)
    ensures st == if installed then Success else Unsupported
  {
    hide Manager.Valid, Manager.Model, Sound, Steady, Install, Load, BufferOff, Coherent, Undisturbed, Guarded;
    m.Facts();
    SoundLayout(m.Model());
    if IsUsable !in m.status {
    } else if OptimalDefaultsEnabled in m.status {
      LoadKeepsBuffer(m.Model());
      st := m.LoadOptimalDefaults();
      m.Fields();
      if OptimalDefaultsEnabled in m.status { st := TurnOff(m); }
    }
    InstallEffect(m.Model(), installed);
    InstallInterface(m, installed);
    m.Fields();
    st := if ValidManager in m.status then Success else Unsupported;
  }

  method DxeBoot(m: Manager, a: Answers, policy: Policy, installed: bool) returns (st: EfiStatus)
    requires m.Valid() && ErrorLoadingDefaults !in m.status
    modifies m`status, m`checksum, m.cells, m.table, m.hob
    ensures m.Valid() && m.Model() == DxeEntry(old(m.Model()), a, policy, installed)
    ensures Coherent(m.Model()) <==>
      WillFlush(old(m.Model()), a) || Coherent(Routed(old(m.Model()), a, policy))
    ensures st == DxeStatus(old(m.Model()), installed)
  {
    hide Manager.Valid, Manager.Model, Sound, Steady, Open, Install, Flush, Coherent;
    hide Undisturbed, Guarded, UsableAfter, Routed, WillFlush;
    ghost var s := m.Model();
    m.Facts();
    SoundLayout(s);
    DxeEntryCoherentIff(s, a, policy, installed);
    OpenStatus(s, a, policy, ValidInterface);
    OpenStatus(s, a, policy, InterfaceAlreadyInstalled);
    OpenKeepsBits(s, a, policy);
    OpenManager(m, a, policy);
    m.Fields();
    if ValidInterface !in m.status { return Unsupported; }
    if InterfaceAlreadyInstalled in m.status { return Success; }
    st := FlushAndInstall(m, installed);
  }

  lemma OpenKeepsBits(s: State, a: Answers, policy: Policy)
    requires Steady(s) && ErrorLoadingDefaults !in s.status
    ensures Steady(Open(s, a, policy)) && ErrorLoadingDefaults !in Open(s, a, policy).status
  {
    hide Steady, Open;
    OpenDiagnoses(s, a, policy);
    assert ErrorLoadingDefaults in GUARDED;
  }

  lemma LoadKeepsBuffer(s: State)
    requires Steady(s) && ErrorLoadingDefaults !in s.status && OptimalDefaultsEnabled in s.status
    ensures OptimalDefaultsEnabled in Load(s).1.status
  {
    hide Load, Layout;
    LoadStatus(s);
    assert OptimalDefaultsEnabled in s.status * ROUTING;
  }

  // ---- SMM ------------------------------------------------------------------------------------------------------

  const CSMI: byte := 0x61

  /** The record that ASL code and the SMI handler exchange. */
  class SmmContext {
    var opcode: byte
    var token: word
    var value: byte
    var status: byte

    constructor (opcode: byte, token: word, value: byte)
      ensures this.opcode == opcode && this.token == token && this.value == value && this.status == 0
    {
      this.opcode, this.token, this.value, this.status := opcode, token, value, 0;
    }
  }

  /** SmiHandler: opcode 0 writes, 1 reads, others fail. */
  method SmiHandler(m: Manager?, ctx: SmmContext, command: byte) returns (st: EfiStatus)
    requires m != null ==> m.Valid()
    modifies ctx`value, ctx`status
    modifies if m == null then {} else {m}, if m == null then {} else {m.cells, m.table}
    modifies if m == null || m.hob == null then {} else {m.hob}
    ensures m != null ==> m.Valid()
    ensures command != CSMI || m == null ==> st == NotFound && ctx.value == old(ctx.value)
    ensures m != null && (command != CSMI || ctx.opcode != 0) ==> m.Model() == old(m.Model())
    ensures m != null && command == CSMI && ctx.opcode == 0 ==>
      (st, m.Model()) == Write(old(m.Model()), ctx.token, old(ctx.value)) && ctx.value == old(ctx.value)
    ensures m != null && command == CSMI && ctx.opcode == 1 ==>
      (st, ctx.value) == Read(old(m.Model()), ctx.token, old(ctx.value))
    ensures command == CSMI ==> (ctx.status == 1 <==> st == Success)
    ensures command != CSMI ==> ctx.status == old(ctx.status)
  {
    hide Sound, Write, Read;
    st := NotFound;
    if command == CSMI {
      if m == null {
        ctx.status := 0;
      } else {
        if ctx.opcode == 0 {
          st := m.WriteCode(ctx.token, ctx.value);
        } else if ctx.opcode == 1 {
          var v;
          st, v := m.ReadCode(ctx.token, ctx.value);
          ctx.value := v;
        }
        ctx.status := if st == Success then 1 else 0;
      }
    }
  }
}
