/** Properties of GXF register banking: bank selection, the VBAR mask and
    lock, the `*_GL11` aliases, the entry vector, the register table, and what
    sequences of accesses in one mode can and cannot reach. */
module GxfProps {
  import opened GxfSpec

  /** The same context with the mode flag flipped. */
  function Flip(s: CpuRegs): CpuRegs
  {
    s.(guarded := !s.guarded)
  }

  // ---------------------------------------------------------------------
  // Dual-view registers

  /** A write to SP, TPIDR, SPSR, ELR, ESR or FAR stores the value unchanged
      into the shadow copy while guarded and into the normal copy otherwise;
      the other bank, the other registers, the entry vector, the mode flag
      and the lock register are untouched. */
  lemma WriteReachesOnlyActiveBank(s: CpuRegs, r: El1Reg, v: Word)
    requires r != Vbar
    ensures var t := DualWrite(s, r, v);
      t.guarded == s.guarded && t.vmsaLockEl1 == s.vmsaLockEl1 && t.gxfEnterEl1 == s.gxfEnterEl1 &&
      (s.guarded ==> t.shadow == s.shadow.Set(r, v) && t.normal == s.normal) &&
      (!s.guarded ==> t.normal == s.normal.Set(r, v) && t.shadow == s.shadow)
  {
  }

  /** Read-after-write in the same mode returns the written value. */
  lemma ReadAfterWrite(s: CpuRegs, r: El1Reg, v: Word)
    requires r != Vbar
    ensures DualRead(DualWrite(s, r, v), r) == v
  {
  }

  /** A dual-view write to any register, VBAR included, leaves unchanged
      every dual-view read in the other mode. */
  lemma BankIsolation(s: CpuRegs, r: El1Reg, v: Word, q: El1Reg)
    ensures DualRead(Flip(DualWrite(s, r, v)), q) == DualRead(Flip(s), q)
  {
  }

  /** A dual-view write in one mode leaves unchanged every dual-view read that
      the same mode makes of another register. */
  lemma WriteLeavesOtherRegisters(s: CpuRegs, r: El1Reg, v: Word, q: El1Reg)
    requires q != r
    ensures DualRead(DualWrite(s, r, v), q) == DualRead(s, q)
  {
  }

  // ---------------------------------------------------------------------
  // VBAR: mask and lock

  /** An accepted VBAR write (guarded, or the lock bit clear) makes the next
      VBAR read in the same mode return the value with its low five bits
      zero and every other bit as written; in both banks. */
  lemma VbarWriteAligned(s: CpuRegs, v: Word)
    requires s.guarded || !VbarLocked(s)
    ensures Aligned(DualRead(DualWrite(s, Vbar, v), Vbar))
    ensures DualRead(DualWrite(s, Vbar, v), Vbar) & !VbarLowBits == v & !VbarLowBits
  {
    assert DualRead(DualWrite(s, Vbar, v), Vbar) == AlignVbar(v);
  }

  /** A normal-mode VBAR write while the lock bit is set changes nothing and
      is reported as an ordinary, permitted write. */
  lemma LockedVbarWriteDropped(s: CpuRegs, v: Word, tvmTrvm: bool -> AccessResult)
    requires !s.guarded && VbarLocked(s)
    ensures DualWrite(s, Vbar, v) == s
    ensures Msr(s, VbarEl1, v, tvmTrvm) == WriteOutcome(s, Ok)
  {
  }

  /** While guarded the lock bit is ignored: the aligned value goes to the
      shadow copy and nothing else changes. */
  lemma GuardedVbarWriteIgnoresLock(s: CpuRegs, v: Word)
    requires s.guarded
    ensures DualWrite(s, Vbar, v) == s.(shadow := s.shadow.(vbar := AlignVbar(v)))
  {
  }

  /** A dual-view write to a register other than VBAR leaves both VBAR
      copies as they were. */
  lemma OtherWriteKeepsVbars(s: CpuRegs, r: El1Reg, v: Word)
    requires r != Vbar
    ensures DualWrite(s, r, v).normal.vbar == s.normal.vbar
    ensures DualWrite(s, r, v).shadow.vbar == s.shadow.vbar
  {
    var t := DualWrite(s, r, v);
    assert t == Store(s, ActiveSlot(s, r), v);
    assert Load(t, Normal(Vbar)) == Load(s, Normal(Vbar));
    assert Load(t, Shadow(Vbar)) == Load(s, Shadow(Vbar));
  }

  /** Every dual-view write keeps both VBAR copies aligned. */
  lemma DualWriteKeepsVbarsAligned(s: CpuRegs, r: El1Reg, v: Word)
    requires VbarsAligned(s)
    ensures VbarsAligned(DualWrite(s, r, v))
  {
    if r == Vbar {
      if s.guarded {
        assert DualWrite(s, r, v) == s.(shadow := s.shadow.(vbar := AlignVbar(v)));
      } else if !VbarLocked(s) {
        assert DualWrite(s, r, v) == s.(normal := s.normal.(vbar := AlignVbar(v)));
      }
    } else {
      OtherWriteKeepsVbars(s, r, v);
    }
  }

  /** VBAR_GL11 is the only entry whose field offset names a VBAR copy. */
  lemma OnlyVbarGl11NamesVbarField(r: SysReg)
    requires r != VbarGl11
    ensures Info(r).binding != Field(Normal(Vbar)) && Info(r).binding != Field(Shadow(Vbar))
  {
  }

  /** Every table access except a VBAR_GL11 write keeps both VBAR copies
      aligned. */
  lemma MsrKeepsVbarsAligned(s: CpuRegs, r: SysReg, v: Word, tvmTrvm: bool -> AccessResult)
    requires VbarsAligned(s) && r != VbarGl11
    ensures VbarsAligned(Msr(s, r, v, tvmTrvm).state)
  {
    var o := Msr(s, r, v, tvmTrvm);
    if o.result == Ok {
      OnlyVbarGl11NamesVbarField(r);
      match Info(r).binding
      case Handlers(reg) =>
        assert o.state == DualWrite(s, reg, v);
        DualWriteKeepsVbarsAligned(s, reg, v);
      case Field(f) =>
        assert o.state == Store(s, f, v);
        StoreKeepsVbarsAligned(s, f, v);
    }
  }

  /** A raw write to a field other than the two VBAR copies keeps them
      aligned. */
  lemma StoreKeepsVbarsAligned(s: CpuRegs, f: Slot, v: Word)
    requires VbarsAligned(s) && f != Normal(Vbar) && f != Shadow(Vbar)
    ensures VbarsAligned(Store(s, f, v))
  {
    var t := Store(s, f, v);
    assert Load(t, Normal(Vbar)) == Load(s, Normal(Vbar));
    assert Load(t, Shadow(Vbar)) == Load(s, Shadow(Vbar));
  }

  /** VBAR_GL11 has no write handler: a guarded write stores the raw value in
      the normal VBAR, so the normal copy can be left unaligned. */
  lemma VbarGl11StoresUnaligned(s: CpuRegs, tvmTrvm: bool -> AccessResult)
    requires s.guarded && VbarsAligned(s)
    ensures Msr(s, VbarGl11, 0x21, tvmTrvm).state.normal.vbar == 0x21
    ensures !VbarsAligned(Msr(s, VbarGl11, 0x21, tvmTrvm).state)
  {
  }

  // ---------------------------------------------------------------------
  // Access checks and aliases

  /** The six `*_GL11` entries are exactly the aliases of normal-bank
      fields, each gated by `access_gxf`; SP is not among them. */
  lemma AliasTable()
    ensures forall r :: IsGl11Alias(r) <==> r in {TpidrGl11, VbarGl11, SpsrGl11, EsrGl11, ElrGl11, FarGl11}
    ensures forall r :: IsGl11Alias(r) ==> Info(r).accessFn == GxfGate && AliasedReg(r) != Sp
  {
  }

  /** While guarded, an alias write stores the value unmodified (no mask, no
      lock check, VBAR_GL11 included) into the normal-bank field and nothing
      else; once the flag is cleared the dual-view read returns it.  An alias
      read returns the normal-bank field. */
  lemma GuardedAliasAccess(s: CpuRegs, r: SysReg, v: Word, tvmTrvm: bool -> AccessResult)
    requires s.guarded && IsGl11Alias(r)
    ensures Msr(s, r, v, tvmTrvm) == WriteOutcome(s.(normal := s.normal.Set(AliasedReg(r), v)), Ok)
    ensures DualRead(Msr(s, r, v, tvmTrvm).state.(guarded := false), AliasedReg(r)) == v
    ensures Mrs(s, r, tvmTrvm) == Value(s.normal.Get(AliasedReg(r)))
  {
  }

  /** While not guarded, every alias read or write traps and changes nothing. */
  lemma NormalAliasAccessTraps(s: CpuRegs, r: SysReg, v: Word, tvmTrvm: bool -> AccessResult)
    requires !s.guarded && IsGl11Alias(r)
    ensures Msr(s, r, v, tvmTrvm) == WriteOutcome(s, Trap)
    ensures Mrs(s, r, tvmTrvm) == ReadTrapped
  {
  }

  /** GXF_ENTER_EL1 is a plain slot: in either mode a write stores the value
      unmodified and changes nothing else, and a read returns the slot. */
  lemma GxfEnterIsPlainSlot(s: CpuRegs, v: Word, tvmTrvm: bool -> AccessResult)
    ensures Msr(s, GxfEnterEl1, v, tvmTrvm) == WriteOutcome(s.(gxfEnterEl1 := v), Ok)
    ensures Mrs(s, GxfEnterEl1, tvmTrvm) == Value(s.gxfEnterEl1)
  {
  }

  /** ESR_EL1 and FAR_EL1 trap exactly when `access_tvm_trvm` refuses, and
      otherwise go through bank selection. */
  lemma TvmGatedRegisters(s: CpuRegs, r: SysReg, v: Word, tvmTrvm: bool -> AccessResult)
    requires r == EsrEl1 || r == FarEl1
    ensures Mrs(s, r, tvmTrvm) == (if tvmTrvm(true) == Ok then Value(DualRead(s, Info(r).binding.reg)) else ReadTrapped)
    ensures Msr(s, r, v, tvmTrvm) ==
      (if tvmTrvm(false) == Ok then WriteOutcome(DualWrite(s, Info(r).binding.reg, v), Ok) else WriteOutcome(s, Trap))
  {
  }

  /** TPIDR_EL1, VBAR, SPSR_EL1 and ELR_EL1 have no access function: they
      never trap, in either mode. */
  lemma UngatedDualViewNeverTraps(s: CpuRegs, r: SysReg, v: Word, tvmTrvm: bool -> AccessResult)
    requires r in {TpidrEl1, VbarEl1, SpsrEl1, ElrEl1}
    ensures Mrs(s, r, tvmTrvm) == Value(DualRead(s, Info(r).binding.reg))
    ensures Msr(s, r, v, tvmTrvm) == WriteOutcome(DualWrite(s, Info(r).binding.reg, v), Ok)
  {
  }

  /** No table entry names a shadow-bank field directly, and none reaches SP:
      the SP handlers are not registered and SP has no alias. */
  lemma ShadowAndSpUnaddressed()
    ensures forall r :: !(Info(r).binding.Field? && Info(r).binding.slot.Shadow?)
    ensures forall r :: Info(r).binding != Handlers(Sp) && Info(r).binding != Field(Normal(Sp))
  {
  }

  /** Every entry's encoding resolves back to that entry. */
  lemma LookupFindsEntry(r: SysReg)
    ensures Lookup(Info(r).enc) == Some(r)
  {
  }

  /** Distinct table entries have distinct encodings. */
  lemma EncodingsDistinct(r1: SysReg, r2: SysReg)
    requires Info(r1).enc == Info(r2).enc
    ensures r1 == r2
  {
    LookupFindsEntry(r1);
    LookupFindsEntry(r2);
  }

  // ---------------------------------------------------------------------
  // Sequences of accesses

  /** In normal mode a dual-view access neither changes the shadow bank nor
      depends on it. */
  lemma NormalDualViewIgnoresShadow(s: CpuRegs, b: Bank, r: El1Reg, v: Word)
    requires !s.guarded
    ensures DualWrite(s, r, v).shadow == s.shadow
    ensures DualWrite(s.(shadow := b), r, v) == DualWrite(s, r, v).(shadow := b)
    ensures DualRead(s.(shadow := b), r) == DualRead(s, r)
  {
    var w := if r == Vbar then AlignVbar(v) else v;
    var t := s.(shadow := b);
    if !(r == Vbar && VbarLocked(s)) {
      assert DualWrite(s, r, v) == s.(normal := s.normal.Set(r, w));
      assert DualWrite(t, r, v) == t.(normal := s.normal.Set(r, w));
    }
  }

  /** A raw access to a field outside the shadow bank neither changes the
      shadow bank nor depends on it. */
  lemma RawAccessIgnoresShadow(s: CpuRegs, b: Bank, f: Slot, v: Word)
    requires !f.Shadow?
    ensures Store(s, f, v).shadow == s.shadow
    ensures Store(s.(shadow := b), f, v) == Store(s, f, v).(shadow := b)
    ensures Load(s.(shadow := b), f) == Load(s, f)
  {
  }

  /** In normal mode an access through the table neither changes the shadow
      bank nor depends on it. */
  lemma NormalStepIgnoresShadow(s: CpuRegs, b: Bank, a: Access, tvmTrvm: bool -> AccessResult)
    requires !s.guarded
    ensures Step(s, a, tvmTrvm).shadow == s.shadow
    ensures Step(s.(shadow := b), a, tvmTrvm) == Step(s, a, tvmTrvm).(shadow := b)
    ensures Observe(s.(shadow := b), a, tvmTrvm) == Observe(s, a, tvmTrvm)
  {
    var r := a.reg;
    var info := Info(r);
    ShadowAndSpUnaddressed();
    assert CheckAccess(s.(shadow := b), info.accessFn, true, tvmTrvm) == CheckAccess(s, info.accessFn, true, tvmTrvm);
    assert CheckAccess(s.(shadow := b), info.accessFn, false, tvmTrvm) == CheckAccess(s, info.accessFn, false, tvmTrvm);
    match info.binding
    case Handlers(reg) =>
      NormalDualViewIgnoresShadow(s, b, reg, if a.WriteReg? then a.value else 0);
    case Field(f) =>
      RawAccessIgnoresShadow(s, b, f, if a.WriteReg? then a.value else 0);
  }

  /** Normal-mode software cannot reach the shadow bank: any sequence of
      accesses in normal mode leaves it as it was, and what that sequence
      observes does not depend on it. */
  lemma {:induction false} NormalModeCannotReachShadow(s: CpuRegs, b: Bank, trace: seq<Access>, tvmTrvm: bool -> AccessResult)
    requires !s.guarded
    ensures Run(s, trace, tvmTrvm).shadow == s.shadow
    ensures Run(s.(shadow := b), trace, tvmTrvm) == Run(s, trace, tvmTrvm).(shadow := b)
    ensures Observations(s.(shadow := b), trace, tvmTrvm) == Observations(s, trace, tvmTrvm)
    decreases |trace|
  {
    if trace != [] {
      NormalStepIgnoresShadow(s, b, trace[0], tvmTrvm);
      NormalModeCannotReachShadow(Step(s, trace[0], tvmTrvm), b, trace[1..], tvmTrvm);
    }
  }

  /** A write to an entry other than the six aliases, made while guarded,
      leaves the normal bank as it was. */
  lemma GuardedStepKeepsNormal(s: CpuRegs, a: Access, tvmTrvm: bool -> AccessResult)
    requires s.guarded
    requires a.WriteReg? ==> !IsGl11Alias(a.reg)
    ensures Step(s, a, tvmTrvm).normal == s.normal
  {
  }

  /** Guarded-mode software changes the normal bank only through the
      `*_GL11` aliases. */
  lemma {:induction false} GuardedModeChangesNormalOnlyViaAliases(s: CpuRegs, trace: seq<Access>, tvmTrvm: bool -> AccessResult)
    requires s.guarded
    requires forall i :: 0 <= i < |trace| && trace[i].WriteReg? ==> !IsGl11Alias(trace[i].reg)
    ensures Run(s, trace, tvmTrvm).normal == s.normal
    decreases |trace|
  {
    if trace != [] {
      GuardedStepKeepsNormal(s, trace[0], tvmTrvm);
      GuardedModeChangesNormalOnlyViaAliases(Step(s, trace[0], tvmTrvm), trace[1..], tvmTrvm);
    }
  }

  /** Any sequence of accesses without a VBAR_GL11 write keeps both VBAR
      copies aligned. */
  lemma {:induction false} RunKeepsVbarsAligned(s: CpuRegs, trace: seq<Access>, tvmTrvm: bool -> AccessResult)
    requires VbarsAligned(s)
    requires forall i :: 0 <= i < |trace| && trace[i].WriteReg? ==> trace[i].reg != VbarGl11
    ensures VbarsAligned(Run(s, trace, tvmTrvm))
    decreases |trace|
  {
    if trace != [] {
      match trace[0] {
        case ReadReg(_) =>
        case WriteReg(r, v) => MsrKeepsVbarsAligned(s, r, v, tvmTrvm);
      }
      RunKeepsVbarsAligned(Step(s, trace[0], tvmTrvm), trace[1..], tvmTrvm);
    }
  }

  // ---------------------------------------------------------------------
  // Worked scenarios

  /** Guarded VBAR write of 0x8000000000000021 reads back as
      0x8000000000000020; the normal copy is unaffected. */
  lemma ScenarioGuardedVbar(s: CpuRegs, tvmTrvm: bool -> AccessResult)
    requires s.guarded
    ensures var t := Msr(s, VbarEl1, 0x8000000000000021, tvmTrvm).state;
      Mrs(t, VbarEl1, tvmTrvm) == Value(0x8000000000000020) &&
      Mrs(Flip(t), VbarEl1, tvmTrvm) == Value(s.normal.vbar)
  {
  }

  /** Normal VBAR write then lock: the second write is dropped. */
  lemma ScenarioVbarLock(s: CpuRegs, tvmTrvm: bool -> AccessResult)
    requires !s.guarded && s.vmsaLockEl1 == 0
    ensures var t := Msr(s, VbarEl1, 0x4100000000000000, tvmTrvm).state;
      var u := Msr(t.(vmsaLockEl1 := VmsaLockVbarEl1), VbarEl1, 0x4200000000000000, tvmTrvm).state;
      Mrs(t, VbarEl1, tvmTrvm) == Value(0x4100000000000000) &&
      Mrs(u, VbarEl1, tvmTrvm) == Value(0x4100000000000000)
  {
  }
}
