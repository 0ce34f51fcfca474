/** Values and reference semantics of the Apple GXF ("guarded execution")
    register banking of one virtual ARM CPU.

    The register context is a value here (CpuRegs); the class in GxfCpu holds
    the same state as mutable fields and is proved to agree with the functions
    below.  Bank selection is stated once, generically, by ActiveSlot: every
    dual-view access reaches the shadow copy while guarded and the normal copy
    otherwise. */
module GxfSpec {

  /** A 64-bit system-register value. */
  type Word = bv64

  /** The low bits every dual-view VBAR write clears (the `~0x1FULL` mask). */
  const VbarLowBits: Word := 0x1F

  /** The bit of `vmsa_lock_el1` that freezes the normal-bank VBAR.
      Its position is taken from the CPU header, which is not part of this
      model; nothing proved below depends on which bit it is. */
  const VmsaLockVbarEl1: Word := 0x2

  /** Verdict of an access-check function (CP_ACCESS_OK / CP_ACCESS_TRAP). */
  datatype AccessResult = Ok | Trap

  /** The seven EL1 registers that have a normal and a shadow copy. */
  datatype El1Reg = Sp | Tpidr | Vbar | Spsr | Elr | Esr | Far

  /** One copy of the seven dual-view registers. */
  datatype Bank = Bank(sp: Word, tpidr: Word, vbar: Word, spsr: Word, elr: Word, esr: Word, far: Word)
  {
    function Get(r: El1Reg): Word
    {
      match r
      case Sp => sp
      case Tpidr => tpidr
      case Vbar => vbar
      case Spsr => spsr
      case Elr => elr
      case Esr => esr
      case Far => far
    }

    /** The bank with register `r` replaced by `v`. */
    function Set(r: El1Reg, v: Word): (b: Bank)
      ensures b.Get(r) == v
      ensures forall o :: o != r ==> b.Get(o) == Get(o)
    {
      match r
      case Sp => this.(sp := v)
      case Tpidr => this.(tpidr := v)
      case Vbar => this.(vbar := v)
      case Spsr => this.(spsr := v)
      case Elr => this.(elr := v)
      case Esr => this.(esr := v)
      case Far => this.(far := v)
    }
  }

  /** The part of a CPU's register context this layer reads or writes:
      the mode flag, the lock register, both banks and the entry vector. */
  datatype CpuRegs = CpuRegs(
    guarded: bool,
    vmsaLockEl1: Word,
    normal: Bank,
    shadow: Bank,
    gxfEnterEl1: Word)

  /** A storage field: a normal-bank register, a shadow-bank register, or the
      shadow-only entry vector. */
  datatype Slot = Normal(reg: El1Reg) | Shadow(reg: El1Reg) | GxfEnter

  /** Raw 64-bit read of a field: the value the field holds, so writing it
      straight back leaves that field's bank as it was. */
  function Load(s: CpuRegs, f: Slot): (v: Word)
    ensures f.Normal? ==> s.normal.Set(f.reg, v) == s.normal
    ensures f.Shadow? ==> s.shadow.Set(f.reg, v) == s.shadow
    ensures f.GxfEnter? ==> s.(gxfEnterEl1 := v) == s
  {
    match f
    case Normal(r) => s.normal.Get(r)
    case Shadow(r) => s.shadow.Get(r)
    case GxfEnter => s.gxfEnterEl1
  }

  /** Raw 64-bit write of a field: that field holds `v`, every other field,
      the mode flag and the lock register keep their values. */
  function Store(s: CpuRegs, f: Slot, v: Word): (t: CpuRegs)
    ensures Load(t, f) == v
    ensures forall g :: g != f ==> Load(t, g) == Load(s, g)
    ensures t.guarded == s.guarded && t.vmsaLockEl1 == s.vmsaLockEl1
  {
    match f
    case Normal(r) => s.(normal := s.normal.Set(r, v))
    case Shadow(r) => s.(shadow := s.shadow.Set(r, v))
    case GxfEnter => s.(gxfEnterEl1 := v)
  }

  /** Bank selection: the field a dual-view access to `r` reaches. */
  function ActiveSlot(s: CpuRegs, r: El1Reg): Slot
  {
    if s.guarded then Shadow(r) else Normal(r)
  }

  /** `w` has its low five bits clear: a 32-byte aligned vector base. */
  predicate Aligned(w: Word)
  {
    w & VbarLowBits == 0
  }

  /** `v` with its low five bits cleared: aligned, and equal to `v` on every
      bit above bit 4. */
  function AlignVbar(v: Word): (a: Word)
    ensures Aligned(a)
    ensures a & !VbarLowBits == v & !VbarLowBits
  {
    v & !VbarLowBits
  }

  predicate VbarLocked(s: CpuRegs)
  {
    s.vmsaLockEl1 & VmsaLockVbarEl1 != 0
  }

  /** What a dual-view read of `r` returns: the shadow copy while guarded,
      the normal copy otherwise. */
  function DualRead(s: CpuRegs, r: El1Reg): (v: Word)
    ensures s.guarded ==> v == s.shadow.Get(r)
    ensures !s.guarded ==> v == s.normal.Get(r)
  {
    Load(s, ActiveSlot(s, r))
  }

  /** The state after a dual-view write of `v` to `r`: the active copy takes
      the value (aligned for VBAR), except that a normal-mode VBAR write is
      dropped while the VBAR lock bit is set. */
  function DualWrite(s: CpuRegs, r: El1Reg, v: Word): (t: CpuRegs)
    ensures t.guarded == s.guarded && t.vmsaLockEl1 == s.vmsaLockEl1 && t.gxfEnterEl1 == s.gxfEnterEl1
    ensures s.guarded ==>
      t.shadow == s.shadow.Set(r, if r == Vbar then AlignVbar(v) else v) && t.normal == s.normal
    ensures !s.guarded && r == Vbar && VbarLocked(s) ==> t == s
    ensures !s.guarded && !(r == Vbar && VbarLocked(s)) ==>
      t.normal == s.normal.Set(r, if r == Vbar then AlignVbar(v) else v) && t.shadow == s.shadow
  {
    if r == Vbar && !s.guarded && VbarLocked(s) then s
    else Store(s, ActiveSlot(s, r), if r == Vbar then AlignVbar(v) else v)
  }

  // ---------------------------------------------------------------------
  // The register table (`t8030gxf_cp_reginfo`) as data

  /** The thirteen register names the table defines. */
  datatype SysReg =
    | TpidrEl1 | VbarEl1 | SpsrEl1 | ElrEl1 | EsrEl1 | FarEl1 | GxfEnterEl1
    | TpidrGl11 | VbarGl11 | SpsrGl11 | EsrGl11 | ElrGl11 | FarGl11

  /** ARM_CP_STATE_AA64 or ARM_CP_STATE_BOTH. */
  datatype CpState = Aa64 | Both

  /** The `.accessfn` of an entry: none, `access_gxf` or `access_tvm_trvm`. */
  datatype AccessFn = Unchecked | GxfGate | AccessTvmTrvm

  /** How an entry reaches storage: through a read/write handler pair (bank
      selected), or through `.fieldoffset` straight to one field. */
  datatype Binding = Handlers(reg: El1Reg) | Field(slot: Slot)

  /** The (op0, op1, CRn, CRm, op2) coordinates that name a system register. */
  datatype Encoding = Encoding(opc0: nat, opc1: nat, crn: nat, crm: nat, opc2: nat)

  datatype RegInfo = RegInfo(
    name: string,
    state: CpState,
    enc: Encoding,
    accessFn: AccessFn,
    binding: Binding,
    isAlias: bool,       // ARM_CP_ALIAS in `.type`
    overrides: bool,     // ARM_CP_OVERRIDE in `.type`
    resetsToZero: bool)  // declares `.resetvalue = 0`

  /** The entries of `t8030gxf_cp_reginfo`.  An entry with handlers
      overrides an existing definition; an entry with a field offset into the
      normal bank is an alias gated by `access_gxf`; exactly the entries that
      are not aliases declare a reset value of zero. */
  function Info(r: SysReg): (i: RegInfo)
    ensures i.overrides <==> i.binding.Handlers?
    ensures i.binding.Field? && i.binding.slot.Normal? ==> i.isAlias && i.accessFn == GxfGate
    ensures i.resetsToZero <==> !i.isAlias
    ensures !i.binding.Field? || !i.binding.slot.Shadow?
  {
    match r
    case TpidrEl1 =>
      RegInfo("TPIDR_EL1", Aa64, Encoding(3, 0, 13, 0, 4), Unchecked, Handlers(Tpidr), false, true, true)
    case VbarEl1 =>
      RegInfo("VBAR", Both, Encoding(3, 0, 12, 0, 0), Unchecked, Handlers(Vbar), false, true, true)
    case SpsrEl1 =>
      RegInfo("SPSR_EL1", Aa64, Encoding(3, 0, 4, 0, 0), Unchecked, Handlers(Spsr), true, true, false)
    case ElrEl1 =>
      RegInfo("ELR_EL1", Aa64, Encoding(3, 0, 4, 0, 1), Unchecked, Handlers(Elr), true, true, false)
    case EsrEl1 =>
      RegInfo("ESR_EL1", Aa64, Encoding(3, 0, 5, 2, 0), AccessTvmTrvm, Handlers(Esr), false, true, true)
    case FarEl1 =>
      RegInfo("FAR_EL1", Aa64, Encoding(3, 0, 6, 0, 0), AccessTvmTrvm, Handlers(Far), false, true, true)
    case GxfEnterEl1 =>
      RegInfo("GXF_ENTER_EL1", Aa64, Encoding(3, 6, 15, 8, 1), Unchecked, Field(GxfEnter), false, false, true)
    case TpidrGl11 =>
      RegInfo("TPIDR_GL11", Aa64, Encoding(3, 6, 15, 9, 1), GxfGate, Field(Normal(Tpidr)), true, false, false)
    case VbarGl11 =>
      RegInfo("VBAR_GL11", Aa64, Encoding(3, 6, 15, 9, 2), GxfGate, Field(Normal(Vbar)), true, false, false)
    case SpsrGl11 =>
      RegInfo("SPSR_GL11", Aa64, Encoding(3, 6, 15, 9, 3), GxfGate, Field(Normal(Spsr)), true, false, false)
    case EsrGl11 =>
      RegInfo("ESR_GL11", Aa64, Encoding(3, 6, 15, 9, 5), GxfGate, Field(Normal(Esr)), true, false, false)
    case ElrGl11 =>
      RegInfo("ELR_GL11", Aa64, Encoding(3, 6, 15, 9, 6), GxfGate, Field(Normal(Elr)), true, false, false)
    case FarGl11 =>
      RegInfo("FAR_GL11", Aa64, Encoding(3, 6, 15, 9, 7), GxfGate, Field(Normal(Far)), true, false, false)
  }

  datatype Option<T> = None | Some(value: T)

  /** The table entry, if any, with coordinates `e`: the decoding direction
      of `Info`'s encodings, written out per entry (LookupFindsEntry proves
      the two agree). */
  function Lookup(e: Encoding): Option<SysReg>
  {
    if e == Encoding(3, 0, 13, 0, 4) then Some(TpidrEl1)
    else if e == Encoding(3, 0, 12, 0, 0) then Some(VbarEl1)
    else if e == Encoding(3, 0, 4, 0, 0) then Some(SpsrEl1)
    else if e == Encoding(3, 0, 4, 0, 1) then Some(ElrEl1)
    else if e == Encoding(3, 0, 5, 2, 0) then Some(EsrEl1)
    else if e == Encoding(3, 0, 6, 0, 0) then Some(FarEl1)
    else if e == Encoding(3, 6, 15, 8, 1) then Some(GxfEnterEl1)
    else if e == Encoding(3, 6, 15, 9, 1) then Some(TpidrGl11)
    else if e == Encoding(3, 6, 15, 9, 2) then Some(VbarGl11)
    else if e == Encoding(3, 6, 15, 9, 3) then Some(SpsrGl11)
    else if e == Encoding(3, 6, 15, 9, 5) then Some(EsrGl11)
    else if e == Encoding(3, 6, 15, 9, 6) then Some(ElrGl11)
    else if e == Encoding(3, 6, 15, 9, 7) then Some(FarGl11)
    else None
  }

  /** A `*_GL11` alias: an entry whose field offset names a normal-bank field. */
  predicate IsGl11Alias(r: SysReg)
  {
    Info(r).binding.Field? && Info(r).binding.slot.Normal?
  }

  /** The normal-bank register a `*_GL11` alias exposes. */
  function AliasedReg(r: SysReg): El1Reg
    requires IsGl11Alias(r)
  {
    Info(r).binding.slot.reg
  }

  // ---------------------------------------------------------------------
  // One system-register access, as the register framework performs it:
  // the entry's access function first; a non-OK verdict traps and changes
  // nothing; otherwise the handler pair, or a raw access to the field.

  /** The verdict of an entry's access function.  `access_tvm_trvm` is not
      part of this model: its verdict is the caller-supplied `tvmTrvm`. */
  function CheckAccess(s: CpuRegs, fn: AccessFn, isread: bool, tvmTrvm: bool -> AccessResult): (a: AccessResult)
    ensures fn == Unchecked ==> a == Ok
    ensures fn == GxfGate ==> (a == Ok <==> s.guarded)
    ensures fn == AccessTvmTrvm ==> a == tvmTrvm(isread)
  {
    match fn
    case Unchecked => Ok
    case GxfGate => if s.guarded then Ok else Trap
    case AccessTvmTrvm => tvmTrvm(isread)
  }

  datatype ReadOutcome = Value(value: Word) | ReadTrapped

  datatype WriteOutcome = WriteOutcome(state: CpuRegs, result: AccessResult)

  /** MRS: read system register `r`. */
  function Mrs(s: CpuRegs, r: SysReg, tvmTrvm: bool -> AccessResult): (o: ReadOutcome)
    ensures o.ReadTrapped? <==> CheckAccess(s, Info(r).accessFn, true, tvmTrvm) == Trap
  {
    if CheckAccess(s, Info(r).accessFn, true, tvmTrvm) == Trap then ReadTrapped
    else
      match Info(r).binding
      case Handlers(reg) => Value(DualRead(s, reg))
      case Field(f) => Value(Load(s, f))
  }

  /** MSR: write `v` to system register `r`.  No write changes the mode flag
      or the lock register, and a trapped write changes nothing. */
  function Msr(s: CpuRegs, r: SysReg, v: Word, tvmTrvm: bool -> AccessResult): (o: WriteOutcome)
    ensures o.result == CheckAccess(s, Info(r).accessFn, false, tvmTrvm)
    ensures o.result == Trap ==> o.state == s
    ensures o.state.guarded == s.guarded && o.state.vmsaLockEl1 == s.vmsaLockEl1
  {
    var verdict := CheckAccess(s, Info(r).accessFn, false, tvmTrvm);
    if verdict == Trap then WriteOutcome(s, Trap)
    else
      match Info(r).binding
      case Handlers(reg) => WriteOutcome(DualWrite(s, reg, v), verdict)
      case Field(f) => WriteOutcome(Store(s, f, v), verdict)
  }

  // ---------------------------------------------------------------------
  // Sequences of accesses in program order, with the mode flag held fixed

  datatype Access = ReadReg(reg: SysReg) | WriteReg(reg: SysReg, value: Word)

  /** What software observes from one access: the value read or a trap, or
      the verdict of a write. */
  datatype Observation = Read(outcome: ReadOutcome) | Wrote(result: AccessResult)

  function Step(s: CpuRegs, a: Access, tvmTrvm: bool -> AccessResult): CpuRegs
  {
    match a
    case ReadReg(_) => s
    case WriteReg(r, v) => Msr(s, r, v, tvmTrvm).state
  }

  function Observe(s: CpuRegs, a: Access, tvmTrvm: bool -> AccessResult): Observation
  {
    match a
    case ReadReg(r) => Read(Mrs(s, r, tvmTrvm))
    case WriteReg(r, v) => Wrote(Msr(s, r, v, tvmTrvm).result)
  }

  /** The state after performing `trace`; no access changes the mode flag or
      the lock register. */
  function Run(s: CpuRegs, trace: seq<Access>, tvmTrvm: bool -> AccessResult): (t: CpuRegs)
    ensures t.guarded == s.guarded && t.vmsaLockEl1 == s.vmsaLockEl1
    decreases |trace|
  {
    if trace == [] then s else Run(Step(s, trace[0], tvmTrvm), trace[1..], tvmTrvm)
  }

  /** The observations of `trace`, one per access. */
  function Observations(s: CpuRegs, trace: seq<Access>, tvmTrvm: bool -> AccessResult): (obs: seq<Observation>)
    ensures |obs| == |trace|
    decreases |trace|
  {
    if trace == [] then []
    else [Observe(s, trace[0], tvmTrvm)] + Observations(Step(s, trace[0], tvmTrvm), trace[1..], tvmTrvm)
  }

  /** Both copies of VBAR are 32-byte aligned. */
  predicate VbarsAligned(s: CpuRegs)
  {
    Aligned(s.normal.vbar) && Aligned(s.shadow.vbar)
  }
}
