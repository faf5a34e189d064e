# CMOS Manager: a Dafny model

The CMOS Manager gives firmware modules access to battery-backed CMOS registers
through *tokens*, 16-bit codes that name a bit field of one register. A 16-bit
additive checksum, itself kept in two CMOS registers, protects the managed
registers. It is carried along on every write and can be recomputed by a scan.
When the checksum or the battery is bad, PEI either reloads the defaults or
*virtualizes* CMOS: accesses are routed to the default table in memory. DXE
inherits that state through a hand-off block (HOB) and flushes the table into
physical CMOS. SMM opens a second manager over the same hardware.

## How the model is built

- `CmosTypes`, `BitFields`, `FieldArithmetic`, `Tables`: bytes and words, status bits (a bitmap is a
  set), tokens, the generated tables of a board and what they promise
  (`WellFormed`), bit fields, cursor search in the sorted exclusion tables.
- `CmosModel`: a state (status word, physical cells, default table, HOB) and, for
  each operation, its effect as one non-recursive function. `View` is the byte the
  router reaches; `Coherent` says that the checksum stored in the view is the sum,
  through the same view, of the managed registers in neither exclusion table.
- `Coherence`, `TokenLaws`, `ClientCodes`, `StatusUpdates`, `Loader`, `Clock`, `ApiPointer`,
  `PersistedStatus`, `LegacyStatus`, `Runs`, `Interleaving`, `Boot`, `HandOff`,
  `Recovery`, `StatusMemory`, `Diagnosis`, `EndToEnd`, `SplitMode`, `WholeBoot`,
  `HandOffRuns`, `Sessions`: the results about these effects.
- `CmosManager` (the class `Manager`), `Phases` and `SharedCmos`: the code in its own order of
  steps, with its loops, in-place arrays, aliasing and mutual recursion. Every
  method is proved to have exactly the effect `CmosModel` gives it (`Refinement`
  holds the small equations this needs), so the results hold of the code.
  Termination of the recursion *status update, token write, checksum write* is part
  of that proof; its measure has three levels, separated by the persisted bits of
  the request and by `CMOS_FORCE_NO_CHECKSUM`.
- `Board`, `BoardBoot`: two concrete boards that meet `WellFormed`, in the shape of the shipped
  `CmosBoard.ssp` (its checksum and pointer registers, and made-up status and data
  registers), and the inputs on which the code does less than one would expect.

What `WellFormed` takes from the table generator and the board: the exclusion tables
are sorted, and the memory just past them does not hold a register that is looked up;
the two checksum tokens are distinct whole bytes of the managed range; checksum,
interface-pointer, century and status registers are outside the checksum, and the
status register is unmanaged; every token names a managed or an excluded register;
raw writes to the managed range are refused; the range lies between 0xf and 255; there
are at most 255 banks. Banks behave like memory cells.

The default table may have any length, with one exception (`TableSuffices`): a boot that
turns the buffer on needs an entry for every register of the range, because the buffer
does not check its index against the table. A table with one entry for each register
that the loader does not skip is always too short for that (`LoaderTableIsTooShort`).

## What turned out different from the documentation

- Flushing the buffer (`LoadOptimalDefaults`, then buffer off) is *not* transparent in
  general. The buffer keeps register r in slot r - first + 1, but the loader counts
  only managed registers. The two agree exactly when no unmanaged register lies below
  r (`SlotsAgreeIff`). Over the coherent states that DXE flushes, the flush is invisible
  exactly then, or when r is the only protected register and the entry taken instead
  is its own checksum (`FlushTransparentIff`). The shipped layout has four unmanaged
  registers at 0x42 to 0x45, so protected registers above them are affected
  (`FlushCorruptsBoard`, and from power-on `FlushCorruptsFromPowerOn`).
- The interface pointer saved in PEI survives a later recovery exactly when the board
  keeps its registers out of the loader's reach, as the shipped layout does; leaving
  them out of the checksum is not enough (`PointerSurvivesPeiIff`, `PointerOnBoards`).
- The policy to recover only checksummed registers is not honoured when DXE flushes a
  state that it finds coherent (`DxeSparesIff`, `PolicyIgnoredOnBoard`).
- The token that should remember a load across a reset is lost when DXE flushes with
  the status register in the buffer (`DxeRemembersIff`, `LoadForgottenOnBoard`).
- DXE repairs an incoherent view only by flushing. When PEI kept the checksum in CMOS
  and the DXE hooks then find CMOS not usable, DXE goes on with an incoherent view
  (`DxeEntryCoherentIff`, `DxeIncoherentOnBoard`).
- The two entry checks of DXE read bits that come with the hand-off block. If the PEI
  entry is called a second time, DXE reports success but neither flushes nor installs
  its interface (`SecondEntryStopsDxe`).
- A load while the registers are buffered and the checksum is in CMOS overwrites the
  checksum of the view (`LoadCoherentIff`, `LoadIncoherentOnBoard`).
- A token write in buffer mode to a register outside the range reports success and is
  lost (`ReadBackIff`, `LostWriteOnBoard`).
- The decimal conversion, documented for two digits, is exact below 160, so dates are
  kept exactly for years below 16000 and fields below 160 (`TimeRoundTripIff`).
- The comments let the legacy failure bits be cleared on a first boot; the code clears
  them only in DXE (`DiagnosticOverRun`). The comments report `EFI_NOT_FOUND` for an
  unlisted token; the code reports `EFI_INVALID_PARAMETER` (`ReadStatus`, `WriteStatus`).
  The model follows the code.

## Model

| member | source | states |
|---|---|---|
| `CmosTypes.TokenCodeRoundTrip` | AmiCompatibilityPkg/CmosManager/CmosTypes.h:202-213 | the code holds the offset in bits 2..0, the register in 11..3 and the size in 15..12, lies above all raw register numbers, and unpacks to its token |
| `CmosTypes.CodeTokenRoundTrip` | AmiCompatibilityPkg/CmosManager/CmosTypes.h:202-213 | every 16-bit code is the code of the token it unpacks to |
| `BitFields.FieldRoundTrip` | AmiCompatibilityPkg/CmosManager/CmosAccess.c:90-187 | a value that fits reads back from its field, and the bits outside the field keep their values |
| `BitFields.FieldsDoNotInterfere` | AmiCompatibilityPkg/CmosManager/CmosAccess.c:90-187 | writing one field leaves any field that shares no bit with it as it was |
| `FieldArithmetic.DecodeIsField` | AmiCompatibilityPkg/CmosManager/CmosAccess.c:90-187 | reading a field is dividing the byte by two to the offset and reducing by two to the size |
| `FieldArithmetic.InsertIsField` | AmiCompatibilityPkg/CmosManager/CmosAccess.c:90-187 | writing a field leaves the quotient above and the remainder below it and puts the value between: the three determine the byte |
| `FieldArithmetic.OverflowsIff` | AmiCompatibilityPkg/CmosManager/CmosAccess.c:90-187 | a value is refused if and only if it is at least two to the size of the field |
| `BitFields.BcdRoundTrip` | AmiCompatibilityPkg/CmosManager/CmosAccess.c:1944-1977 | decimal to BCD and back is exact if and only if the byte is below 160 |
| `BitFields.BcdDigits` | AmiCompatibilityPkg/CmosManager/CmosAccess.c:1944-1977 | two decimal digits become the same two hexadecimal digits, and back |
| `Tables.CursorDecidesMembership` | AmiCompatibilityPkg/CmosManager/CmosAccess.c:495-512 | in a sorted table the comparison at the cursor is membership, except for the slot past the end |
| `Tables.Advance` | AmiCompatibilityPkg/CmosManager/CmosAccess.c:1475-1497 | a cursor moved forward over increasing registers stands where a fresh search would |
| `Coherence.SumFits` | AmiCompatibilityPkg/CmosManager/CmosAccess.c:1463-1507 | the sum of all protected registers fits 16 bits, so the scan never wraps |
| `Coherence.IncrementalUpdateIsExact` | AmiCompatibilityPkg/CmosManager/CmosAccess.c:1400-1404 | from a coherent state, stored minus old plus new is the true new sum, without borrow or carry out of 16 bits |
| `Coherence.SummedWriteIsCoherent` | AmiCompatibilityPkg/CmosManager/CmosAccess.c:440-467 | a write to a protected register, in any routing mode, keeps the checksum equal to the sum |
| `Coherence.StoreChecksumEffect` | AmiCompatibilityPkg/CmosManager/CmosAccess.c:1080-1105 | the stored checksum reads back, no other register in the view moves, and only the suspension flag changes |
| `Coherence.StoringTheSumIsCoherent` | AmiCompatibilityPkg/CmosManager/CmosAccess.c:1840-1842 | whatever the registers hold, storing the scanned sum establishes coherence |
| `TokenLaws.WriteThenRead` | AmiCompatibilityPkg/CmosManager/CmosAccess.c:746-790 | in either routing mode, and despite the nested checksum write, a written token reads back and the rest of its byte stays |
| `TokenLaws.WriteKeepsOtherFields` | AmiCompatibilityPkg/CmosManager/CmosAccess.c:746-790 | every other token that does not overlap and is not on the checksum reads as before |
| `ClientCodes.ReadStatus` | AmiCompatibilityPkg/CmosManager/CmosAccess.c:822-870 | for every code exactly when a read reports a device error, not found, an invalid parameter or success |
| `ClientCodes.ReadValue` | AmiCompatibilityPkg/CmosManager/CmosAccess.c:822-870 | what a read delivers: the caller's byte when refused, the physical register for a raw code, for a token the bits of its field through the router |
| `ClientCodes.WriteStatus` | AmiCompatibilityPkg/CmosManager/CmosAccess.c:1569-1619 | for every code and value exactly when a write reports a device error, not found, an invalid parameter or success |
| `ClientCodes.RawWriteEffect` | AmiCompatibilityPkg/CmosManager/CmosAccess.c:1569-1619 | a raw write changes its register and nothing else, not even the checksum |
| `ClientCodes.TokenWriteFrame` | AmiCompatibilityPkg/CmosManager/CmosAccess.c:440-467 | a token write touches its own register in the store that the router chooses and besides at most the checksum |
| `ClientCodes.WriteMarksChecksummed` | AmiCompatibilityPkg/CmosManager/CmosAccess.c:1385-1404 | the address-is-checksummed bit after a write tells whether the register is in neither table |
| `TokenLaws.ReadBackIff` | AmiCompatibilityPkg/CmosManager/CmosAccess.c:571-579 | a successful write reads back, whatever the caller's variable held, if and only if the router has a place for the register |
| `TokenLaws.WriteKeepsCoherenceIff` | AmiCompatibilityPkg/CmosManager/CmosAccess.c:1357-1407 | from a coherent state a write keeps coherence if and only if it does not change a checksum register |
| `TokenLaws.SuspendedWriteCoherentIff` | AmiCompatibilityPkg/CmosManager/CmosAccess.c:458-466 | while checksum updating is suspended a write keeps coherence if and only if it changes neither a protected nor a checksum register |
| `TokenLaws.StrayWriteBreaksCoherenceIff` | AmiCompatibilityPkg/CmosManager/CmosAccess.c:1385-1404 | a register outside the range and in neither table breaks coherence as soon as its value changes |
| `StatusUpdates.SetClearEffect` | AmiCompatibilityPkg/CmosManager/CmosManager.c:295-330 | a status update, with all its nested writes, changes the requested bits, disturbs neither checksum nor data, and leaves the HOB in step |
| `PersistedStatus.StatusIsRemembered` | AmiCompatibilityPkg/CmosManager/CmosManager.c:300-315 | on usable CMOS a raised bit is remembered by its own token and no other; otherwise the tokens stay |
| `PersistedStatus.StatusUpdateKeepsField` | AmiCompatibilityPkg/CmosManager/CmosManager.c:300-315 | a status update leaves every other field alone, also the free bits of the status register |
| `LegacyStatus.DiagnosticOverRun` | AmiCompatibilityPkg/CmosManager/CmosAccess.c:1238-1321 | over every sequence of status updates: in PEI a failure bit is its first value or was raised since, in DXE it is its status bit once touched, six bits never move |
| `Loader.SlotsAgreeIff` | AmiCompatibilityPkg/CmosManager/CmosAccess.c:1728-1772 | the loader's entry for a register is the buffer's slot if and only if no unmanaged register lies below it |
| `Loader.DefaultIndexCounts` | AmiCompatibilityPkg/CmosManager/CmosAccess.c:1728-1772 | the entry of a register is one more than the number of registers the loader writes before it |
| `Loader.LoadedRegister` | AmiCompatibilityPkg/CmosManager/CmosAccess.c:1728-1819 | after a load, successful or not, each register other than checksum, status and diagnostic holds its default entry where the loader writes it and its old value elsewhere |
| `Loader.LoadIsCoherent` | AmiCompatibilityPkg/CmosManager/CmosAccess.c:1665-1865 | from arbitrary contents, physical CMOS is coherent after a load once the buffer is off |
| `Loader.LoadSucceeds` | AmiCompatibilityPkg/CmosManager/CmosAccess.c:1805-1843 | a load never raises the error bit and fails only if a caller had raised it |
| `Loader.LoadLeavesBit` | AmiCompatibilityPkg/CmosManager/CmosAccess.c:1690-1860 | a load leaves every status bit outside the five it maintains as it was |
| `Loader.LoadKeepsTable` | AmiCompatibilityPkg/CmosManager/CmosAccess.c:1690-1860 | without the buffer a load leaves the whole default table alone, with it all but the slots of status registers |
| `Loader.LoadLeavesChecksumField` | AmiCompatibilityPkg/CmosManager/CmosAccess.c:1824-1843 | a load does not refresh the manager's own copy of the checksum, and one that reports an error stores no checksum |
| `StatusMemory.LoadHeld` | AmiCompatibilityPkg/CmosManager/CmosAccess.c:1836-1860 | which status tokens a load sets in CMOS: the bad-checksum token if and only if the registers its loop left do not match the stored checksum, the defaults-loaded token where the restored routing keeps it |
| `Diagnosis.LoadDiagnostic` | AmiCompatibilityPkg/CmosManager/CmosAccess.c:1836-1843 | the checksum-bad bit of register 0xe after a load: in PEI set if and only if it was or the registers its loop left did not match, in DXE clear; the other seven bits stay |
| `Loader.RestrictedLoadFrame` | AmiCompatibilityPkg/CmosManager/CmosAccess.c:1781-1802 | recovery limited to checksummed registers changes no register of the no-checksum table except checksum and status, and ends coherent |
| `Loader.FlushedRegister` | AmiCompatibilityPkg/CmosManager/CmosManagerDxe.c:651-669 | which table entry a protected register shows before and after the flush |
| `Loader.FlushedTokenReadsSame` | AmiCompatibilityPkg/CmosManager/CmosManagerDxe.c:651-669 | with no unmanaged register below it, a protected token reads the same from the buffer before and from CMOS after, and CMOS is coherent |
| `Loader.FlushTransparentIff` | AmiCompatibilityPkg/CmosManager/CmosManagerDxe.c:625-669 | over all coherent states that pass the entry checks and are flushed, the flush is invisible at a protected register if and only if no unmanaged register lies below it, or it is the only protected register and the entry taken for it is its own buffered checksum byte |
| `Board.BoardIsWellFormed` | AmiCompatibilityPkg/CmosManager/CmosBoard.ssp:91-132 | the requirements on the tables can be met with the shipped checksum and pointer registers, the pointer unmanaged or merely not checksummed; the other registers are made up |
| `Board.BoardCodes` | AmiCompatibilityPkg/CmosManager/CmosTypes.h:202-213 | 0x8238 is the code of the 8-bit token on register 0x47, 0x1232 that of bit 2 of register 0x46 |
| `Board.FlushCorruptsBoard` | AmiCompatibilityPkg/CmosManager/CmosManagerDxe.c:651-669 | with the pointer registers unmanaged there is a coherent buffer whose flush, in every DXE entry that finds CMOS usable, changes what a protected register shows |
| `Board.PolicyIgnoredOnBoard` | AmiCompatibilityPkg/CmosManager/CmosManagerDxe.c:651-669 | a coherent state with the recover-only-checksummed policy in which every DXE entry that finds CMOS usable replaces a register outside the checksum |
| `Board.DxeIncoherentOnBoard` | AmiCompatibilityPkg/CmosManager/CmosManagerDxe.c:643-650 | a coherent state from which every DXE entry whose hooks find CMOS not usable ends incoherent |
| `Board.LostWriteOnBoard` | AmiCompatibilityPkg/CmosManager/CmosAccess.c:574-579 | a listed token for which a write reports success, changes nothing, and a read returns what the caller's variable held |
| `Board.LoadForgottenOnBoard` | AmiCompatibilityPkg/CmosManager/CmosAccess.c:1852-1860 | a coherent state from which DXE sets the defaults-loaded bit and leaves its token clear |
| `Board.PointerOnBoards` | AmiCompatibilityPkg/CmosManager/CmosManagerPei.c:616-661 | with unmanaged pointer registers the saved pointer survives every PEI entry; with the same registers merely not checksummed a recovery overwrites it |
| `Board.LoadIncoherentOnBoard` | AmiCompatibilityPkg/CmosManager/CmosAccess.c:1840-1860 | a coherent state, checksum in CMOS and registers buffered, in which a load succeeds and leaves the view incoherent |
| `BoardBoot.FlushCorruptsFromPowerOn` | AmiCompatibilityPkg/CmosManager/CmosManagerDxe.c:625-669 | from power-on with a bad battery: a token that a client wrote and read as 1 reads 0 after every DXE entry that finds CMOS usable |
| `BoardBoot.SecondEntryStopsDxe` | AmiCompatibilityPkg/CmosManager/CmosManagerDxe.c:625-629 | from power-on, after a second PEI entry: DXE returns success for all answers and ends with the buffer on and nothing installed |
| `Clock.TimeRoundTripIff` | AmiCompatibilityPkg/CmosManager/CmosAccess.c:2080-2145 | setting then getting the time returns it if and only if the year is below 16000 and every field below 160 |
| `Clock.SetTimeStores` | AmiCompatibilityPkg/CmosManager/CmosAccess.c:2080-2103 | the byte of each clock register after setting the time, and that nothing else but the control register changes |
| `Clock.SetTimeShowsDigits` | AmiCompatibilityPkg/CmosManager/CmosAccess.c:2080-2103 | for the documented dates every clock register shows the decimal digits of its field |
| `Clock.ClockRestarted` | AmiCompatibilityPkg/CmosManager/CmosAccess.c:1886-1925 | after setting the time the inhibit bit is clear and the other control bits are as before |
| `Clock.SetTimeUnnoticed` | AmiCompatibilityPkg/CmosManager/CmosAccess.c:2080-2103 | setting the time disturbs no protected register and no checksum register in any routing mode |
| `ApiPointer.ApiRoundTrip` | AmiCompatibilityPkg/CmosManager/CmosManager.c:515-594 | on usable CMOS the saved 32-bit pointer reads back in any routing mode |
| `ApiPointer.FourBytes` | AmiCompatibilityPkg/CmosManager/CmosManager.c:568-594 | the pointer is read from registers 0x42 to 0x45, most significant byte first |
| `ApiPointer.SaveApiKeepsChecksum` | AmiCompatibilityPkg/CmosManager/CmosManager.c:515-541 | saving the pointer reports success or, on unusable CMOS, a device error, and changes neither the stored checksum nor a protected register |
| `Runs.ClientRoundTrip` | AmiCompatibilityPkg/CmosManager/CmosAccess.c:1569-1619 | for every code, raw or token, a successful write with a place to go is what the next read returns |
| `Runs.RefusedWriteChangesNothing` | AmiCompatibilityPkg/CmosManager/CmosAccess.c:1569-1619 | a write that reports an error leaves the whole state as it was |
| `Runs.StepKeepsGood` | AmiCompatibilityPkg/CmosManager/CmosAccess.c:414-470 | every client operation that does not write the checksum, change the routing or suspend updating keeps the invariant |
| `Runs.RunKeepsCoherence` | AmiCompatibilityPkg/CmosManager/CmosAccess.c:414-624 | over every finite sequence of such operations, in any routing mode, the stored checksum stays the sum, and the HOB stays in step |
| `Interleaving.InterleavingKeepsCoherence` | AmiCompatibilityPkg/CmosManager/CmosManagerSmm.c:354-388 | any interleaving of two managers with separate status words keeps the shared CMOS coherent for both |
| `SplitMode.BufferedStepSpares` | AmiCompatibilityPkg/CmosManager/CmosAccess.c:560-624 | no safe operation of a wholly buffered manager reaches a protected or checksum register of physical CMOS |
| `SplitMode.SplitInterleaving` | AmiCompatibilityPkg/CmosManager/CmosManagerSmm.c:354-388 | over every interleaving of a buffered DXE and a physical SMM, DXE stays coherent in the buffer and SMM in CMOS if it was |
| `Boot.OpenDiagnoses` | AmiCompatibilityPkg/CmosManager/CmosManager.c:767-924 | after opening a manager the bad-checksum bit is set if and only if the view is incoherent, and the battery bit follows the last hook |
| `Boot.OpenStatus` | AmiCompatibilityPkg/CmosManager/CmosManager.c:849-924 | every other status bit of an open manager, as a function of the bits before, the hook answers and the policy |
| `Boot.OpenKeepsChecks` | AmiCompatibilityPkg/CmosManager/CmosManagerDxe.c:625-629 | the two entry checks pass after opening if and only if they pass on the status handed in |
| `Boot.OpenFindsCoherence` | AmiCompatibilityPkg/CmosManager/CmosManager.c:906-924 | the bad-checksum bit is set if and only if the state handed in is incoherent under the routing that the answers and the policy give |
| `StatusMemory.OpenHeld` | AmiCompatibilityPkg/CmosManager/CmosManager.c:836-924 | which status tokens opening a manager sets in CMOS, from the answers in the order of the hooks, the policy and the diagnosis |
| `Diagnosis.OpenDiagnostic` | AmiCompatibilityPkg/CmosManager/CmosManager.c:836-924 | register 0xe after opening a manager, in PEI and in DXE |
| `Boot.OpenKnowsTheSum` | AmiCompatibilityPkg/CmosManager/CmosManager.c:906-924 | the manager's own checksum field is the true sum once it is open |
| `Boot.AskRaises` | AmiCompatibilityPkg/CmosManager/CmosManager.c:849-894 | a boot bit is set if and only if it was or some hook answered yes |
| `Boot.BufferOnIsCoherent` | AmiCompatibilityPkg/CmosManager/CmosManager.c:450-470 | virtualizing ends with a coherent buffer view, whatever the table holds |
| `Diagnosis.BufferOnDiagnoses` | AmiCompatibilityPkg/CmosManager/CmosManager.c:466-470 | after virtualizing, the bad-checksum bit and its mirror tell whether the table as built was coherent, and the manager's copy is the checksum stored |
| `Boot.PrepareSavesPointer` | AmiCompatibilityPkg/CmosManager/CmosManagerPei.c:610-633 | after the first PEI step the pointer is readable from CMOS, and a first cold boot has loaded the defaults |
| `HandOffRuns.PointerBeforeDecision` | AmiCompatibilityPkg/CmosManager/CmosManagerPei.c:610-633 | the pointer is the saved one if and only if CMOS is usable and the boot processor executes, and otherwise what it was at power-on |
| `Boot.TableBeforeDecision` | AmiCompatibilityPkg/CmosManager/CmosManagerPei.c:596-633 | until PEI decides about a bad checksum or battery nothing has written the default table, and the in-memory bit is as at power-on |
| `Boot.VirtualizesIff` | AmiCompatibilityPkg/CmosManager/CmosManagerPei.c:610-661 | when PEI turns the buffer on and when it recovers, stated on the contents, answers and policy at power-on |
| `Boot.LoaderTableIsTooShort` | AmiCompatibilityPkg/CmosManager/CmosAccess.c:1711-1730 | a table with exactly one entry for each register the loader writes holds all their entries and never covers the range that the buffer addresses |
| `Boot.SettleIsCoherent` | AmiCompatibilityPkg/CmosManager/CmosManagerPei.c:640-661 | clean, recovered or virtualized, the PEI decision ends coherent, with a table of any length unless it virtualizes; it virtualizes exactly when something is bad and recovery in PEI is not possible |
| `Boot.PeiBootIsCoherent` | AmiCompatibilityPkg/CmosManager/CmosManagerPei.c:601-680 | from arbitrary CMOS contents and hook answers, and with a table of any length unless PEI virtualizes, PEI ends coherent, with checksum updating enabled and no loading error; when it virtualizes, in terms of the inputs |
| `HandOffRuns.ProtectedAfterPei` | AmiCompatibilityPkg/CmosManager/CmosManagerPei.c:610-661 | a protected register of physical CMOS holds its table entry after PEI if and only if PEI loaded on a first cold boot or recovered, and otherwise its value at power-on |
| `HandOff.HobCreationIsInvisible` | AmiCompatibilityPkg/CmosManager/CmosManagerPei.c:106-185 | moving to the HOB copies changes no client read, and the HOB starts in step |
| `HandOff.BlockCarriesAll` | AmiCompatibilityPkg/CmosManager/CmosManagerPei.c:106-185 | a block just created hands over status, store, tables and checksum, to a manager of the DXE phase without a block |
| `HandOff.AfterMemoryEffect` | AmiCompatibilityPkg/CmosManager/CmosManagerPei.c:215-255 | the entry after memory saves the pointer where CMOS is usable and keeps it elsewhere, sets the memory bit, changes no other register, and creates the block |
| `HandOff.HandOffKeepsReads` | AmiCompatibilityPkg/CmosManager/CmosManagerDxe.c:246-278 | a DXE manager made from a HOB in step answers every read as PEI would |
| `HandOff.HandOffAfterRun` | AmiCompatibilityPkg/CmosManager/CmosManagerDxe.c:246-278 | the same after any safe sequence of PEI operations, and what is handed over is coherent |
| `HandOffRuns.RunKeepsPointer` | AmiCompatibilityPkg/CmosManager/CmosManager.c:568-594 | over every run of operations that do not address its registers the interface pointer stays |
| `HandOffRuns.PointerIsHandedOver` | AmiCompatibilityPkg/CmosManager/CmosManagerPei.c:239-247 | from power-on: on usable CMOS the pointer saved after memory is the one DXE finds |
| `HandOffRuns.StoreChecksumNotes` | AmiCompatibilityPkg/CmosManager/CmosAccess.c:1080-1105 | every checksum stored is noted in the block |
| `HandOffRuns.RunKeepsBlockSum` | AmiCompatibilityPkg/CmosManager/CmosAccess.c:1080-1105 | over every safe run the checksum in the block stays the one stored in the view |
| `HandOffRuns.PeiKnowsSum` | AmiCompatibilityPkg/CmosManager/CmosManagerPei.c:601-680 | a PEI entry that loads nothing ends with its own copy equal to the stored checksum |
| `HandOffRuns.BlockSumIsHandedOver` | AmiCompatibilityPkg/CmosManager/CmosManagerDxe.c:246-278 | from power-on, when PEI loaded nothing and no client wrote before the block existed, the checksum DXE takes from the block is the stored one |
| `HandOff.DxeEntryCoherentIff` | AmiCompatibilityPkg/CmosManager/CmosManagerDxe.c:607-695 | DXE ends coherent if and only if the entry checks pass, the buffer is on and the last usable answer is yes, or the state handed over is coherent under the routing that answers and policy give; when it ends in buffer mode, and when as a valid manager |
| `HandOff.DxeReports` | AmiCompatibilityPkg/CmosManager/CmosManagerDxe.c:607-695 | DXE reports success if and only if the interface is valid and its manager was there before or is installed |
| `HandOff.DxeKeepsCoherence` | AmiCompatibilityPkg/CmosManager/CmosManagerDxe.c:607-695 | for all answers and all outcomes of the entry checks, a coherent hand-off ends coherent if and only if DXE flushes or the stored checksum reads the same under the new routing |
| `HandOff.DxeEntryCell` | AmiCompatibilityPkg/CmosManager/CmosManagerDxe.c:607-695 | physical CMOS after DXE: the loader's entry where DXE flushes and the loader writes, and what PEI left elsewhere |
| `HandOff.DxeEntryView` | AmiCompatibilityPkg/CmosManager/CmosManagerDxe.c:607-695 | what a protected register shows after DXE, flushed or not |
| `HandOff.TokenSurvivesHandOff` | AmiCompatibilityPkg/CmosManager/CmosManagerDxe.c:651-669 | for all answers, a protected token with no unmanaged register below it reads the same in PEI before the hand-off and in DXE after its entry |
| `Recovery.LoadKeepsPointerIff` | AmiCompatibilityPkg/CmosManager/CmosAccess.c:1728-1819 | a load keeps the interface pointer if and only if every pointer byte that the loader writes equals its default |
| `Recovery.PointerAtEndOfPei` | AmiCompatibilityPkg/CmosManager/CmosManagerPei.c:610-661 | for one boot: the pointer at the end of PEI is the saved one if and only if PEI does not recover or no written byte differs |
| `Recovery.PointerSurvivesPeiIff` | AmiCompatibilityPkg/CmosManager/CmosManagerPei.c:610-661 | for one board: the saved pointer survives every PEI entry if and only if no pointer register is managed and loadable |
| `Recovery.DxeSparesIff` | AmiCompatibilityPkg/CmosManager/CmosAccess.c:1781-1802 | a loadable register outside the checksum keeps its value through DXE if and only if DXE does not flush, or the policy asks for it on a bad checksum and no first boot, or its entry is equal |
| `StatusMemory.SetClearHeld` | AmiCompatibilityPkg/CmosManager/CmosManager.c:300-315 | which token a status update sets in physical CMOS, in any routing mode |
| `StatusMemory.FlushRemembersIff` | AmiCompatibilityPkg/CmosManager/CmosAccess.c:1852-1860 | after a flush the defaults-loaded token is set if and only if CMOS held it or the status register is routed to usable CMOS |
| `StatusMemory.DxeRemembersIff` | AmiCompatibilityPkg/CmosManager/CmosManagerDxe.c:651-669 | the same for the whole DXE entry, in terms of the state handed over, the answers and the policy |
| `EndToEnd.WriteLeavesBit` | AmiCompatibilityPkg/CmosManager/CmosAccess.c:458-466 | a client write returns with every status bit, the suspension flag included, as it was, except the address-is-checksummed bit |
| `EndToEnd.RunLeavesBit` | AmiCompatibilityPkg/CmosManager/CmosAccess.c:1805-1835 | over every sequence, a bit nobody asks to change keeps its value, so the loading-error bit never appears |
| `EndToEnd.PeiEndsGood` | AmiCompatibilityPkg/CmosManager/CmosManagerPei.c:585-680 | the end of PEI satisfies the invariant of all later operations |
| `EndToEnd.AfterMemoryGood` | AmiCompatibilityPkg/CmosManager/CmosManagerPei.c:215-255 | saving the pointer, setting the memory bit and creating the HOB keep the invariant, the tables and the store |
| `EndToEnd.BootEndsGood` | AmiCompatibilityPkg/CmosManager/CmosManagerDxe.c:607-695 | for all answers: after any safe PEI operations DXE ends with the invariant if and only if it flushes or finds the stored checksum where PEI kept it, and always without the buffer |
| `EndToEnd.SmmJoins` | AmiCompatibilityPkg/CmosManager/CmosManagerSmm.c:418-490 | the SMM manager opened on what DXE left finds the checksum good, and the pair satisfies the invariant of all interleavings |
| `WholeBoot.PowerOnToDxe` | AmiCompatibilityPkg/CmosManager/CmosManagerDxe.c:607-695 | the phases composed: from arbitrary contents, with clients at work before and after the HOB exists and arbitrary answers in both phases, exactly when DXE ends with the invariant |
| `WholeBoot.PeiEndProceeds` | AmiCompatibilityPkg/CmosManager/CmosManagerPei.c:601-680 | for all contents and answers PEI ends with a manager that passes the entry checks of DXE |
| `WholeBoot.HandedOverProceeds` | AmiCompatibilityPkg/CmosManager/CmosManager.c:326-327 | so does the state handed over, whatever clients do, unless one or a later entry touches the two bits |
| `WholeBoot.VirtualizedShowsTable` | AmiCompatibilityPkg/CmosManager/CmosManager.c:450-470 | after a virtualizing PEI every register but checksum and status registers has the value of its slot in the built table, and protected registers show it |
| `WholeBoot.PowerOnToRunTime` | AmiCompatibilityPkg/CmosManager/CmosManagerSmm.c:270-296 | from arbitrary contents at power-on through PEI, memory, hand-off, DXE and the opening of SMM to any interleaving: without the buffer the shared CMOS stays coherent for both managers; if DXE stays in buffer mode each keeps its own coherence |
| `Sessions.BufferedLoadUnnoticed` | AmiCompatibilityPkg/CmosManager/CmosAccess.c:1665-1865 | a load in buffer mode disturbs no protected register and no checksum that is kept in the buffer |
| `Sessions.LoadCoherentIff` | AmiCompatibilityPkg/CmosManager/CmosAccess.c:1840-1860 | from a coherent state a load ends coherent if and only if the buffer is off or every checksum byte kept in CMOS is the same byte of the sum of the loaded table entries |
| `Sessions.SessionKeepsGood` | AmiCompatibilityPkg/CmosManager/CmosManager.c:419-488 | over every sequence of client operations, virtualizations, flushes and those loads that keep coherence, the view of the moment stays coherent and no loading error appears |
| `CmosManager.Manager.FindBank` | AmiCompatibilityPkg/CmosManager/CmosAccess.c:335-375 | the port-map scan finds a bank if and only if one gives access |
| `CmosManager.Manager.FindToken` | AmiCompatibilityPkg/CmosManager/CmosAccess.c:217-236 | a nonzero index names the token the code encodes; zero means it is not listed |
| `CmosManager.Manager.IsNotChecksummed` | AmiCompatibilityPkg/CmosManager/CmosAccess.c:495-512 | the search answers membership in the no-checksum table |
| `CmosManager.Manager.UsesBuffer` | AmiCompatibilityPkg/CmosManager/CmosAccess.c:660-701 | the routing decision of the view |
| `CmosManager.Manager.RegisterRead` | AmiCompatibilityPkg/CmosManager/CmosAccess.c:660-701 | the byte the view routes to |
| `CmosManager.Manager.ReadCode` | AmiCompatibilityPkg/CmosManager/CmosAccess.c:822-870 | status and value of a client read for every code, the error cases included |
| `CmosManager.Manager.LoadChecksum` | AmiCompatibilityPkg/CmosManager/CmosAccess.c:1042-1055 | the stored checksum of the view, whatever the caller's variable held |
| `CmosManager.Manager.SetClearStatus` | AmiCompatibilityPkg/CmosManager/CmosManager.c:295-330 | the recursion terminates and has the one-step effect on status, CMOS, buffer and HOB |
| `CmosManager.Manager.SynchronizeLegacy` | AmiCompatibilityPkg/CmosManager/CmosAccess.c:1238-1321 | the diagnostic byte after the update and nothing else |
| `CmosManager.Manager.UpdateChecksum` | AmiCompatibilityPkg/CmosManager/CmosAccess.c:1357-1407 | the checksummed bit is set exactly for registers in neither table, and then the result is the updated checksum |
| `CmosManager.Manager.WriteChecksum` | AmiCompatibilityPkg/CmosManager/CmosAccess.c:1080-1105 | the recursion terminates; the checksum, the HOB copy and the flag after it |
| `CmosManager.Manager.PhysicalWrite` | AmiCompatibilityPkg/CmosManager/CmosAccess.c:414-470 | the whole new state of a physical write, its nested checksum write included |
| `CmosManager.Manager.BufferWrite` | AmiCompatibilityPkg/CmosManager/CmosAccess.c:560-624 | the whole new state of a buffer write, and that a write outside the range is dropped |
| `CmosManager.Manager.WriteCode` | AmiCompatibilityPkg/CmosManager/CmosAccess.c:1569-1619 | status and whole new state of a client write for every code |
| `CmosManager.Manager.ScanChecksum` | AmiCompatibilityPkg/CmosManager/CmosAccess.c:1455-1510 | the one-pass scan with two cursors is the sum over the registers in neither table |
| `CmosManager.Manager.CalculateChecksum` | AmiCompatibilityPkg/CmosManager/CmosAccess.c:1438-1537 | the sum, and the bad-checksum bit set if and only if it differs from the stored one |
| `CmosManager.Manager.WriteDefaults` | AmiCompatibilityPkg/CmosManager/CmosAccess.c:1728-1819 | the loop, with its skips and early exit, leaves physical CMOS as the per-register description says |
| `CmosManager.Manager.LoadOptimalDefaults` | AmiCompatibilityPkg/CmosManager/CmosAccess.c:1665-1865 | status and whole new state of a load |
| `CmosManager.Manager.ConfigureManager` | AmiCompatibilityPkg/CmosManager/CmosManager.c:419-488 | buffer on, off, both (refused) or neither; exactly when turned on outside memory the table is a fresh copy and the original keeps its contents |
| `CmosManager.Manager.SaveApiPointer` | AmiCompatibilityPkg/CmosManager/CmosManager.c:515-541 | the new state, or a device error on unusable CMOS |
| `CmosManager.Manager.GetApiPointer` | AmiCompatibilityPkg/CmosManager/CmosManager.c:568-594 | the pointer assembled from its four registers, or a device error |
| `CmosManager.Manager.CreateDataHob` | AmiCompatibilityPkg/CmosManager/CmosManagerPei.c:106-185 | the manager works on the fresh tables of the HOB from here on, with equal contents |
| `CmosManager.Manager.TakeOver` | AmiCompatibilityPkg/CmosManager/CmosManagerDxe.c:246-278 | the DXE manager shares tables and buffer of the HOB and has its status |
| `CmosManager.Manager.SetDateTime` | AmiCompatibilityPkg/CmosManager/CmosAccess.c:2080-2103 | the clock registers after setting the time |
| `CmosManager.Manager.WriteClock` | AmiCompatibilityPkg/CmosManager/CmosAccess.c:2080-2103 | the clock registers are written only while the update-inhibit bit is set |
| `CmosManager.Manager.GetDateTime` | AmiCompatibilityPkg/CmosManager/CmosAccess.c:2125-2145 | the time the clock registers stand for |
| `Phases.OpenManager` | AmiCompatibilityPkg/CmosManager/CmosManager.c:767-924 | the state after hooks, policy, checksum and battery, for all lists of answers |
| `Phases.PeiBoot` | AmiCompatibilityPkg/CmosManager/CmosManagerPei.c:585-680 | from power-on to the end of the PEI entry the code ends coherent, with updating enabled and no loading error, with a table of any length unless it virtualizes; outside memory the default table is never written |
| `Phases.LaterEntry` | AmiCompatibilityPkg/CmosManager/CmosManager.c:780-786 | an entry that finds the manager sets one bit on it, with the HOB in step, and returns success if the interface is valid |
| `Phases.AfterMemoryEntry` | AmiCompatibilityPkg/CmosManager/CmosManagerPei.c:215-255 | pointer saved, memory bit set, and a HOB that is in step and holds the live tables |
| `Phases.DxeTakesOver` | AmiCompatibilityPkg/CmosManager/CmosManagerDxe.c:246-278 | the new manager answers every read as PEI does and works on the same buffer |
| `Phases.DxeBoot` | AmiCompatibilityPkg/CmosManager/CmosManagerDxe.c:607-695 | the new state and the returned status, both early returns included, and that the state is coherent if and only if DXE flushes or the state handed over is coherent under the new routing |
| `Phases.SmiHandler` | AmiCompatibilityPkg/CmosManager/CmosManagerSmm.c:354-388 | opcode 0 is a client write, 1 a client read, others fail; the status byte tells success |
| `SharedCmos.Perform` | AmiCompatibilityPkg/CmosManager/CmosAccess.c:1569-1619 | each client operation on the object has the effect of the step on states |
| `SharedCmos.PerformShared` | AmiCompatibilityPkg/CmosManager/CmosManagerSmm.c:354-388 | with two manager objects over one array of cells, an operation of one leaves the other valid and changes of its state only the cells |
| `SharedCmos.Interleave` | AmiCompatibilityPkg/CmosManager/CmosManagerSmm.c:354-388 | any interleaving of the methods of the two objects is the interleaving of their states and keeps both coherent |

## Left out

- Port input and output, the NMI bit, the update-in-progress wait and the 8-bit truncation of a register number on an index port: banks are memory cells addressed by register number.
- An SMI in the middle of a DXE write: managers alternate between whole operations only.
- A DXE entry without a hand-off block, as after a failed installation in PEI: its manager would have no tables.
- PPI, protocol and event installation, pool allocation and tracing: installation is an arbitrary answer, allocation succeeds.
- Board hooks for battery, usability, first boot, cold boot and boot processor: arbitrary lists of answers.
- ReadCmosStatusBytes, ReadCmosBytes, CmosGetTokenFromRegister, ClearCmosBasedStatus: short sequences of the reads and writes that are modelled.
- The definition of the CMOS_MGR_* status tokens is not part of this model; they are parameters with the stated requirements.
- CmosMessages.c, the Setup variable update, the library wrappers, ASL patching and the assembly-language SEC access.
- The access-type parameter of the read/write functions: reading and writing are separate methods.
