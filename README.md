# GXF register banking for one virtual ARM CPU

This project models the Apple "GXF" (guarded execution) register banking of a
T8030 virtual CPU, as implemented in `hw/arm/t8030_gxf.c`. The core is a small
layer over the CPU register context:

- The mode flag `gxf.guarded` chooses between two copies of seven EL1
  registers: SP, TPIDR, VBAR, SPSR, ELR, ESR and FAR.
- Each register has a read/write handler pair. The pair sends the access to
  the shadow copy (`gxf.*_gl[1]`) while guarded and to the normal
  architectural field otherwise.
- VBAR writes clear the low five bits. In normal mode a VBAR write is
  silently dropped while the VBAR bit of `vmsa_lock_el1` is set.
- `access_gxf` permits an access only while guarded.
- Six `*_GL11` aliases are gated by `access_gxf`. They reach the normal-bank
  fields directly, with no handler.
- `GXF_ENTER_EL1` is a plain, ungated slot.
- ESR_EL1 and FAR_EL1 are gated by the external `access_tvm_trvm`.

The model has three modules:

- `GxfSpec` holds the register context as a value (`CpuRegs`). It states bank
  selection once and generically: `ActiveSlot` picks the shadow field while
  guarded and the normal field otherwise, and `DualRead` and `DualWrite` are
  built on it. `Info` holds the register table (`t8030gxf_cp_reginfo`) as
  data: name, state, encoding, access function, binding, ALIAS/OVERRIDE flags
  and `resetvalue`. `Mrs` and `Msr` describe one access through the table,
  and `Run` and `Observations` describe a sequence of accesses.
- `GxfCpu.ArmCpu` is a class holding the same context as mutable fields.
  `access_gxf`, `raw_read` and the seven read handlers are functions of
  those fields. `raw_write` and the seven write handlers are methods that
  update the fields in place. Each one is proved equal to the generic
  reference in `GxfSpec`.
- `GxfProps` holds the properties, as lemmas.

Assumptions the model makes about code outside the modelled file:

- The register framework runs an entry's `accessfn` first. A verdict other
  than OK traps and changes nothing. Otherwise it calls
  `readfn`/`writefn`, or, when those are absent, does a raw 64-bit access to
  `fieldoffset`. `Mrs` and `Msr` encode this order.
- In AArch64 state the VBAR entry's normal field is `cp15.vbar_ns`. In the
  CPU header this is the same storage as `cp15.vbar_el[1]`, which VBAR_GL11
  names. The model therefore has one normal VBAR field, `normal.vbar`. The
  header `target/arm/cpu.h` is not part of this model.
- `VMSA_LOCK_VBAR_EL1` is taken to be bit 1. No lemma depends on which bit
  it is.
- `access_tvm_trvm` is not part of this model. Every access takes its
  verdict as a parameter `tvmTrvm: bool -> AccessResult`, indexed by
  `isread`.

Two consequences of the code worth knowing:

- The two VBAR copies are not always 32-byte aligned. VBAR_GL11 has no write
  handler, so a guarded alias write stores the raw value into the normal VBAR
  (`GuardedAliasAccess`, `VbarGl11StoresUnaligned`). Every other access keeps
  both copies aligned (`MsrKeepsVbarsAligned`, `RunKeepsVbarsAligned`).
- `sp_el1_read` and `sp_el1_write` are defined but have no table entry, so
  nothing in the table reaches SP (`ShadowAndSpUnaddressed`). The handlers
  are still modelled.

## Model

| member | source | states |
|---|---|---|
| `GxfCpu.ArmCpu.AccessGxf` | hw/arm/t8030_gxf.c:32-39 | returns OK exactly when `guarded` is set and TRAP otherwise, whatever `isread` is; it is a function, so it changes nothing |
| `GxfCpu.ArmCpu.RawRead` | hw/arm/t8030_gxf.c:11-19 | returns the 64-bit value of the named field |
| `GxfCpu.ArmCpu.RawWrite` | hw/arm/t8030_gxf.c:21-30 | the named field takes the value; every other field, the mode flag and the lock register are unchanged (via `GxfSpec.Store`) |
| `GxfSpec.Load` | hw/arm/t8030_gxf.c:11-19 | a raw read returns the value the field holds: writing it straight back leaves the field's bank (or the entry vector) unchanged |
| `GxfSpec.Store` | hw/arm/t8030_gxf.c:21-30 | after a raw write, the field reads back the value, every other field reads as before, and the mode flag and lock register are unchanged |
| `GxfSpec.DualRead` | hw/arm/t8030_gxf.c:41-160 | the common meaning of the seven read handlers: the shadow copy of the register while guarded, the normal copy otherwise |
| `GxfSpec.DualWrite` | hw/arm/t8030_gxf.c:50-169 | the common meaning of the seven write handlers: while guarded only the shadow copy changes; in normal mode a VBAR write while locked changes nothing, otherwise only the normal copy changes; VBAR takes the value with its low five bits cleared, the others the raw value; flag, lock and entry vector never change |
| `GxfSpec.Info` | hw/arm/t8030_gxf.c:171-246 | the thirteen table entries as data; exactly the handler entries are OVERRIDE, every entry with a field offset into the normal bank is ALIAS and gated by `access_gxf`, exactly the non-ALIAS entries reset to 0, and no entry names a shadow field |
| `GxfSpec.CheckAccess` | hw/arm/t8030_gxf.c:32-39 | the verdict of an entry's `.accessfn`: OK with none, OK exactly while guarded with `access_gxf`, the external verdict with `access_tvm_trvm` |
| `GxfCpu.ArmCpu.SpEl1Read` | hw/arm/t8030_gxf.c:41-48 | equals the bank-selected read of SP: `gxf.sp_gl[1]` while guarded, `sp_el[1]` otherwise |
| `GxfCpu.ArmCpu.SpEl1Write` | hw/arm/t8030_gxf.c:50-57 | the new state is the bank-selected write of SP to the active copy |
| `GxfCpu.ArmCpu.TpidrEl1Read` | hw/arm/t8030_gxf.c:59-66 | equals the bank-selected read of TPIDR |
| `GxfCpu.ArmCpu.TpidrEl1Write` | hw/arm/t8030_gxf.c:68-75 | the new state is the bank-selected write of TPIDR |
| `GxfCpu.ArmCpu.VbarEl1Read` | hw/arm/t8030_gxf.c:77-84 | equals the bank-selected read of VBAR; the normal copy is read through `raw_read` |
| `GxfCpu.ArmCpu.VbarEl1Write` | hw/arm/t8030_gxf.c:86-97 | the new state is the reference VBAR write: aligned value to the active copy, nothing at all in normal mode while locked |
| `GxfCpu.ArmCpu.SpsrEl1Read` | hw/arm/t8030_gxf.c:99-106 | equals the bank-selected read of SPSR (normal copy `banked_spsr[BANK_SVC]`) |
| `GxfCpu.ArmCpu.SpsrEl1Write` | hw/arm/t8030_gxf.c:108-115 | the new state is the bank-selected write of SPSR |
| `GxfCpu.ArmCpu.ElrEl1Read` | hw/arm/t8030_gxf.c:117-124 | equals the bank-selected read of ELR |
| `GxfCpu.ArmCpu.ElrEl1Write` | hw/arm/t8030_gxf.c:126-133 | the new state is the bank-selected write of ELR |
| `GxfCpu.ArmCpu.EsrEl1Read` | hw/arm/t8030_gxf.c:135-142 | equals the bank-selected read of ESR |
| `GxfCpu.ArmCpu.EsrEl1Write` | hw/arm/t8030_gxf.c:144-151 | the new state is the bank-selected write of ESR |
| `GxfCpu.ArmCpu.FarEl1Read` | hw/arm/t8030_gxf.c:153-160 | equals the bank-selected read of FAR |
| `GxfCpu.ArmCpu.FarEl1Write` | hw/arm/t8030_gxf.c:162-169 | the new state is the bank-selected write of FAR |
| `GxfCpu.ArmCpu.El1Read` | hw/arm/t8030_gxf.c:41-160 | the read handler of any dual-view register returns the shadow copy while guarded and the normal copy otherwise |
| `GxfCpu.ArmCpu.El1Write` | hw/arm/t8030_gxf.c:50-169 | the write handler of any dual-view register produces the reference dual-view write |
| `GxfCpu.ArmCpu.Permission` | hw/arm/t8030_gxf.c:171-246 | the verdict of an entry's `.accessfn`: none means OK, `access_gxf` depends on the mode, and `access_tvm_trvm` is the external verdict |
| `GxfCpu.ArmCpu.ExecMrs` | hw/arm/t8030_gxf.c:171-246 | a read of a table entry on the object equals the reference `Mrs` of its state |
| `GxfCpu.ArmCpu.ExecMsr` | hw/arm/t8030_gxf.c:171-246 | a write of a table entry on the object yields the state and verdict of the reference `Msr` |
| `GxfSpec.AlignVbar` | hw/arm/t8030_gxf.c:88-95 | the `& ~0x1F` mask gives a value with the low five bits zero that agrees with the input on every other bit |
| `GxfSpec.Mrs` | hw/arm/t8030_gxf.c:171-246 | a table read traps exactly when the entry's access function refuses |
| `GxfSpec.Msr` | hw/arm/t8030_gxf.c:171-246 | a table write reports the access function's verdict; a trapped write changes nothing; no write changes the mode flag or the lock register |
| `GxfSpec.Run` | hw/arm/t8030_gxf.c:171-246 | no sequence of table accesses changes the mode flag or the lock register |
| `GxfProps.WriteReachesOnlyActiveBank` | hw/arm/t8030_gxf.c:50-169 | a write to SP, TPIDR, SPSR, ELR, ESR or FAR stores the raw value into the shadow copy while guarded, or the normal copy otherwise; all else is unchanged |
| `GxfProps.ReadAfterWrite` | hw/arm/t8030_gxf.c:41-169 | for SP, TPIDR, SPSR, ELR, ESR and FAR, a read in the same mode returns the written value |
| `GxfProps.BankIsolation` | hw/arm/t8030_gxf.c:41-169 | a dual-view write in one mode, to any register, does not change any dual-view read in the other mode |
| `GxfProps.WriteLeavesOtherRegisters` | hw/arm/t8030_gxf.c:41-169 | a dual-view write does not change the same mode's reads of the other registers |
| `GxfProps.VbarWriteAligned` | hw/arm/t8030_gxf.c:86-97 | after an accepted VBAR write, a read in the same mode has its low five bits zero and every higher bit as written, in either bank |
| `GxfProps.LockedVbarWriteDropped` | hw/arm/t8030_gxf.c:90-93 | a normal-mode VBAR write while the lock bit is set leaves the whole state unchanged and is reported as OK (no error) |
| `GxfProps.GuardedVbarWriteIgnoresLock` | hw/arm/t8030_gxf.c:88-89 | a guarded VBAR write ignores the lock and stores the aligned value in the shadow copy only |
| `GxfProps.OtherWriteKeepsVbars` | hw/arm/t8030_gxf.c:41-169 | writes to the other six dual-view registers leave both VBAR copies unchanged |
| `GxfProps.DualWriteKeepsVbarsAligned` | hw/arm/t8030_gxf.c:86-97 | every dual-view write keeps both VBAR copies 32-byte aligned |
| `GxfProps.OnlyVbarGl11NamesVbarField` | hw/arm/t8030_gxf.c:177-246 | VBAR_GL11 is the only table entry with a field offset on a VBAR copy |
| `GxfProps.StoreKeepsVbarsAligned` | hw/arm/t8030_gxf.c:21-30 | a raw write to any field other than a VBAR copy keeps both copies aligned |
| `GxfProps.MsrKeepsVbarsAligned` | hw/arm/t8030_gxf.c:171-246 | every table write except VBAR_GL11 keeps both VBAR copies aligned |
| `GxfProps.VbarGl11StoresUnaligned` | hw/arm/t8030_gxf.c:217-222 | a guarded VBAR_GL11 write of 0x21 stores 0x21 in the normal VBAR: no mask, alignment broken |
| `GxfProps.AliasTable` | hw/arm/t8030_gxf.c:211-246 | the aliases of normal-bank fields are exactly the six `*_GL11` entries; each is gated by `access_gxf`, and none aliases SP |
| `GxfProps.GuardedAliasAccess` | hw/arm/t8030_gxf.c:32-246 | while guarded, an alias write stores the raw value in the normal field only (VBAR_GL11 too); the dual-view read after the flag is cleared returns it; an alias read returns the normal field |
| `GxfProps.NormalAliasAccessTraps` | hw/arm/t8030_gxf.c:211-246 | while not guarded, every alias read and write traps and the state is unchanged |
| `GxfProps.GxfEnterIsPlainSlot` | hw/arm/t8030_gxf.c:206-210 | in either mode, GXF_ENTER_EL1 is read and written without a check or mask, and a write changes nothing else |
| `GxfProps.TvmGatedRegisters` | hw/arm/t8030_gxf.c:194-205 | ESR_EL1 and FAR_EL1 trap exactly when `access_tvm_trvm` refuses; otherwise they go through bank selection |
| `GxfProps.UngatedDualViewNeverTraps` | hw/arm/t8030_gxf.c:172-193 | TPIDR_EL1, VBAR, SPSR_EL1 and ELR_EL1 have no access function and never trap |
| `GxfProps.ShadowAndSpUnaddressed` | hw/arm/t8030_gxf.c:171-248 | no table entry names a shadow field directly, and none reaches SP |
| `GxfProps.LookupFindsEntry` | hw/arm/t8030_gxf.c:171-246 | each entry's (op0, op1, CRn, CRm, op2) encoding resolves back to that entry |
| `GxfProps.EncodingsDistinct` | hw/arm/t8030_gxf.c:171-246 | distinct entries have distinct encodings |
| `GxfProps.NormalDualViewIgnoresShadow` | hw/arm/t8030_gxf.c:41-169 | in normal mode a dual-view read or write neither changes the shadow bank nor depends on it |
| `GxfProps.RawAccessIgnoresShadow` | hw/arm/t8030_gxf.c:11-30 | a raw access to a non-shadow field neither changes the shadow bank nor depends on it |
| `GxfProps.NormalStepIgnoresShadow` | hw/arm/t8030_gxf.c:171-246 | in normal mode one table access neither changes the shadow bank nor depends on it |
| `GxfProps.NormalModeCannotReachShadow` | hw/arm/t8030_gxf.c:32-246 | any sequence of accesses in normal mode leaves the shadow bank unchanged, and what it observes does not depend on the shadow bank |
| `GxfProps.GuardedStepKeepsNormal` | hw/arm/t8030_gxf.c:41-246 | while guarded, an access other than an alias write leaves the normal bank unchanged |
| `GxfProps.GuardedModeChangesNormalOnlyViaAliases` | hw/arm/t8030_gxf.c:41-246 | a guarded sequence of accesses with no alias write leaves the normal bank unchanged |
| `GxfProps.RunKeepsVbarsAligned` | hw/arm/t8030_gxf.c:86-246 | a sequence of accesses with no VBAR_GL11 write keeps both VBAR copies aligned |
| `GxfProps.ScenarioGuardedVbar` | hw/arm/t8030_gxf.c:86-97 | a guarded write of 0x8000000000000021 reads back as 0x8000000000000020, and the normal copy keeps its value |
| `GxfProps.ScenarioVbarLock` | hw/arm/t8030_gxf.c:86-97 | a normal write of 0x4100000000000000 reads back; after locking, a write of 0x4200000000000000 is dropped |

## Left out

- Registration (`t8030cpu_init_gxf`, `define_arm_cp_regs`) and the framework's mapping from encodings to handlers belong to the register framework, not to this file. The table is kept as data (`Info`). `Lookup`, the decoding direction, lists the thirteen encodings a second time, and `LookupFindsEntry` proves the two listings agree.
- The 32-bit branch of `raw_read`/`raw_write` is left out. Every field used here is 64-bit in AArch64 state.
- The AArch32 view of the VBAR entry (`ARM_CP_STATE_BOTH`) is left out. So is the secure bank `cp15.vbar_s`, which that view would reach.
- `access_tvm_trvm` is not part of this model. It is a caller-supplied verdict. Its distinct trap kinds (such as a trap to EL2) are folded into one `Trap`.
- `.access = PL1_RW` (the privilege-level check the framework makes) is left out. Every access is taken to come from EL1.
- Reset is left out. The table's `resetvalue` flags are kept as data, but the reset of both banks, the mode flag and the lock register happens outside this file.
- Whatever sets or clears `guarded`, and whatever sets the VBAR lock bit, is outside this file. No modelled access changes either one.
- Migration and the ALIAS/OVERRIDE flags' effect on the framework are kept as flags only.
