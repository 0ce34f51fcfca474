/** The GXF handlers over a mutable CPU register context.

    ArmCpu holds one field per CPU-state field the handlers touch.  The read
    handlers and `access_gxf` are functions of the fields; the write handlers
    and `raw_write` update the fields in place.  Each member is proved to agree
    with the reference semantics in GxfSpec through State(). */
module GxfCpu {
  import opened GxfSpec

  class ArmCpu {
    var guarded: bool       // env->gxf.guarded
    var vmsaLockEl1: Word   // env->cp15.vmsa_lock_el1

    /** Normal bank, the architectural EL1 fields: sp_el[1], cp15.tpidr_el[1],
        cp15.vbar_ns (the same storage as cp15.vbar_el[1]),
        banked_spsr[BANK_SVC], elr_el[1], cp15.esr_el[1], cp15.far_el[1]. */
    var normal: Bank
    /** Shadow bank: env->gxf.sp_gl[1], tpidr_gl[1], vbar_gl[1], spsr_gl[1],
        elr_gl[1], esr_gl[1], far_gl[1]. */
    var shadow: Bank
    var gxfEnterEl1: Word   // env->gxf.gxf_enter_el[1]

    /** The register context these fields hold. */
    function State(): CpuRegs
      reads this
    {
      CpuRegs(guarded, vmsaLockEl1, normal, shadow, gxfEnterEl1)
    }

    constructor (init: CpuRegs)
      ensures State() == init
    {
      guarded, vmsaLockEl1 := init.guarded, init.vmsaLockEl1;
      normal, shadow, gxfEnterEl1 := init.normal, init.shadow, init.gxfEnterEl1;
    }

    /** `access_gxf`: permits exactly while guarded, whatever the direction. */
    function AccessGxf(isread: bool): (r: AccessResult)
      reads this
      ensures (r == Ok) == guarded
      ensures forall tvm: bool -> AccessResult :: r == CheckAccess(State(), GxfGate, isread, tvm)
    {
      if guarded then Ok else Trap
    }

    /** `raw_read`: the 64-bit value of one field. */
    function RawRead(f: Slot): (v: Word)
      reads this
      ensures v == Load(State(), f)
    {
      match f
      case Normal(r) =>
        (match r
         case Sp => normal.sp
         case Tpidr => normal.tpidr
         case Vbar => normal.vbar
         case Spsr => normal.spsr
         case Elr => normal.elr
         case Esr => normal.esr
         case Far => normal.far)
      case Shadow(r) =>
        (match r
         case Sp => shadow.sp
         case Tpidr => shadow.tpidr
         case Vbar => shadow.vbar
         case Spsr => shadow.spsr
         case Elr => shadow.elr
         case Esr => shadow.esr
         case Far => shadow.far)
      case GxfEnter => gxfEnterEl1
    }

    /** `raw_write`: one field takes `v`, nothing else changes. */
    method RawWrite(f: Slot, v: Word)
      modifies this
      ensures State() == Store(old(State()), f, v)
    {
      match f
      case Normal(r) =>
        match r {
          case Sp => normal := normal.(sp := v);
          case Tpidr => normal := normal.(tpidr := v);
          case Vbar => normal := normal.(vbar := v);
          case Spsr => normal := normal.(spsr := v);
          case Elr => normal := normal.(elr := v);
          case Esr => normal := normal.(esr := v);
          case Far => normal := normal.(far := v);
        }
      case Shadow(r) =>
        match r {
          case Sp => shadow := shadow.(sp := v);
          case Tpidr => shadow := shadow.(tpidr := v);
          case Vbar => shadow := shadow.(vbar := v);
          case Spsr => shadow := shadow.(spsr := v);
          case Elr => shadow := shadow.(elr := v);
          case Esr => shadow := shadow.(esr := v);
          case Far => shadow := shadow.(far := v);
        }
      case GxfEnter => gxfEnterEl1 := v;
    }

    /** `sp_el1_read`. */
    function SpEl1Read(): (v: Word)
      reads this
      ensures v == DualRead(State(), Sp)
    {
      if guarded then shadow.sp else normal.sp
    }

    /** `sp_el1_write`. */
    method SpEl1Write(v: Word)
      modifies this
      ensures State() == DualWrite(old(State()), Sp, v)
    {
      if guarded {
        shadow := shadow.(sp := v);
      } else {
        normal := normal.(sp := v);
      }
    }

    /** `tpidr_el1_read`. */
    function TpidrEl1Read(): (v: Word)
      reads this
      ensures v == DualRead(State(), Tpidr)
    {
      if guarded then shadow.tpidr else normal.tpidr
    }

    /** `tpidr_el1_write`. */
    method TpidrEl1Write(v: Word)
      modifies this
      ensures State() == DualWrite(old(State()), Tpidr, v)
    {
      if guarded {
        shadow := shadow.(tpidr := v);
      } else {
        normal := normal.(tpidr := v);
      }
    }

    /** `vbar_el1_read`: the shadow copy while guarded, otherwise the normal
        copy through `raw_read`. */
    function VbarEl1Read(): (v: Word)
      reads this
      ensures v == DualRead(State(), Vbar)
    {
      if guarded then shadow.vbar else RawRead(Normal(Vbar))
    }

    /** `vbar_el1_write`: the value with its low five bits cleared goes to the
        shadow copy while guarded; in normal mode the write returns early,
        storing nothing, while the VBAR lock bit is set, and otherwise goes to
        the normal copy through `raw_write`. */
    method VbarEl1Write(v: Word)
      modifies this
      ensures State() == DualWrite(old(State()), Vbar, v)
    {
      if guarded {
        shadow := shadow.(vbar := v & !0x1F);
      } else {
        if !guarded && vmsaLockEl1 & VmsaLockVbarEl1 != 0 {
          return;
        }
        RawWrite(Normal(Vbar), v & !0x1F);
      }
    }

    /** `spsr_el1_read`. */
    function SpsrEl1Read(): (v: Word)
      reads this
      ensures v == DualRead(State(), Spsr)
    {
      if guarded then shadow.spsr else normal.spsr
    }

    /** `spsr_el1_write`. */
    method SpsrEl1Write(v: Word)
      modifies this
      ensures State() == DualWrite(old(State()), Spsr, v)
    {
      if guarded {
        shadow := shadow.(spsr := v);
      } else {
        normal := normal.(spsr := v);
      }
    }

    /** `elr_el1_read`. */
    function ElrEl1Read(): (v: Word)
      reads this
      ensures v == DualRead(State(), Elr)
    {
      if guarded then shadow.elr else normal.elr
    }

    /** `elr_el1_write`. */
    method ElrEl1Write(v: Word)
      modifies this
      ensures State() == DualWrite(old(State()), Elr, v)
    {
      if guarded {
        shadow := shadow.(elr := v);
      } else {
        normal := normal.(elr := v);
      }
    }

    /** `esr_el1_read`. */
    function EsrEl1Read(): (v: Word)
      reads this
      ensures v == DualRead(State(), Esr)
    {
      if guarded then shadow.esr else normal.esr
    }

    /** `esr_el1_write`. */
    method EsrEl1Write(v: Word)
      modifies this
      ensures State() == DualWrite(old(State()), Esr, v)
    {
      if guarded {
        shadow := shadow.(esr := v);
      } else {
        normal := normal.(esr := v);
      }
    }

    /** `far_el1_read`. */
    function FarEl1Read(): (v: Word)
      reads this
      ensures v == DualRead(State(), Far)
    {
      if guarded then shadow.far else normal.far
    }

    /** `far_el1_write`. */
    method FarEl1Write(v: Word)
      modifies this
      ensures State() == DualWrite(old(State()), Far, v)
    {
      if guarded {
        shadow := shadow.(far := v);
      } else {
        normal := normal.(far := v);
      }
    }

    /** The read handler of dual-view register `r`. */
    function El1Read(r: El1Reg): (v: Word)
      reads this
      ensures v == DualRead(State(), r)
      ensures guarded ==> v == shadow.Get(r)
      ensures !guarded ==> v == normal.Get(r)
    {
      match r
      case Sp => SpEl1Read()
      case Tpidr => TpidrEl1Read()
      case Vbar => VbarEl1Read()
      case Spsr => SpsrEl1Read()
      case Elr => ElrEl1Read()
      case Esr => EsrEl1Read()
      case Far => FarEl1Read()
    }

    /** The write handler of dual-view register `r`. */
    method El1Write(r: El1Reg, v: Word)
      modifies this
      ensures State() == DualWrite(old(State()), r, v)
    {
      match r
      case Sp => SpEl1Write(v);
      case Tpidr => TpidrEl1Write(v);
      case Vbar => VbarEl1Write(v);
      case Spsr => SpsrEl1Write(v);
      case Elr => ElrEl1Write(v);
      case Esr => EsrEl1Write(v);
      case Far => FarEl1Write(v);
    }

    /** The verdict of table entry `r`'s access function in this state. */
    function Permission(r: SysReg, isread: bool, tvmTrvm: bool -> AccessResult): (a: AccessResult)
      reads this
      ensures a == CheckAccess(State(), Info(r).accessFn, isread, tvmTrvm)
    {
      match Info(r).accessFn
      case Unchecked => Ok
      case GxfGate => AccessGxf(isread)
      case AccessTvmTrvm => tvmTrvm(isread)
    }

    /** MRS of table entry `r` on this CPU. */
    function ExecMrs(r: SysReg, tvmTrvm: bool -> AccessResult): (o: ReadOutcome)
      reads this
      ensures o == Mrs(State(), r, tvmTrvm)
    {
      if Permission(r, true, tvmTrvm) == Trap then ReadTrapped
      else
        match Info(r).binding
        case Handlers(reg) => Value(El1Read(reg))
        case Field(f) => Value(RawRead(f))
    }

    /** MSR of `v` to table entry `r` on this CPU: a trapped access changes
        nothing; otherwise the write handler or a raw write to the field. */
    method ExecMsr(r: SysReg, v: Word, tvmTrvm: bool -> AccessResult) returns (res: AccessResult)
      modifies this
      ensures WriteOutcome(State(), res) == Msr(old(State()), r, v, tvmTrvm)
    {
      res := Permission(r, false, tvmTrvm);
      if res == Trap {
        return;
      }
      match Info(r).binding
      case Handlers(reg) => El1Write(reg, v);
      case Field(f) => RawWrite(f, v);
    }
  }
}
