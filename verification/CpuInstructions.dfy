/** Every stable opcode: its scheduled micro-operations amount to its instruction. */
module CpuInstructions {
  import opened Bits
  import opened CpuTypes
  import opened CpuAlu
  import opened CpuExec
  import opened CpuFlow
  import opened CpuAddressing
  import opened CpuRefinement
  import opened CpuControl
  import opened InstructionSet
  import opened Opcodes

  predicate ModifiesMemory(op: OpType) {
    Modifies(op) || IndexedModifies(op)
  }

  function ModifyMode(op: OpType): Mode
    requires ModifiesMemory(op)
  {
    match op
    case AbsoluteRMW(_, _) => AbsMode
    case ZeroPageRMW(_, _) => ZpMode
    case ZeroPageIndexRMW(index, _) => ZpIndexedMode(index)
    case AbsoluteIndexRMW(index, _) => AbsIndexedMode(index)
    case IndirectIndexedRMW(_) => IndirectIndexedMode
    case IndexedIndirectRMW(_) => IndexedIndirectMode
  }

  /**
   A read-modify-write of $4014 is interrupted by the DMA that its first write asks for, and then
   writes back what the DMA left in the data latch.
   */
  predicate AvoidsDma(c: Core, op: OpType, dev: Device) {
    ModifiesMemory(op) ==> Resolve(c, ModifyMode(op), false, dev).addr != DMA_ADDRESS
  }

  /** Opcodes whose behaviour does not depend on the configured corruption, and that are no software interrupt. */
  predicate Stable(op: OpType) {
    Entry(op) && !Unstable(op) && !op.BRK?
  }

  // --- programs in two parts

  lemma ReadsSplit(op: OpType)
    requires Reads(op)
    ensures op.AbsoluteRead? ==> Program(op) == Finding(AbsMode, Reading) + [MicroOp.Read(Latch, op.target, op.cb)]
    ensures op.ZeroPageRead? ==> Program(op) == Finding(ZpMode, Reading) + [MicroOp.Read(AddressSource.LO, op.target, op.cb)]
    ensures op.ZeroPageIndexRead? ==>
              Program(op) == Finding(ZpIndexedMode(op.index), Reading) + [MicroOp.Read(AddressSource.Temp, op.target, op.cb)]
  {
    hide FetchLo, FetchHi;
    assert Program(op) == ReadsProgram(op);
    if op.AbsoluteRead? {
    } else if op.ZeroPageRead? {
    } else {
    }
  }

  lemma IndexedReadsSplit(op: OpType)
    requires IndexedReads(op)
    ensures op.AbsoluteIndexRead? ==>
              Program(op) == Finding(AbsIndexedMode(op.index), Reading) + [ReadPageCrossAware(op.index, op.target, true, op.cb)]
    ensures op.IndexedIndirectRead? ==>
              Program(op) == Finding(IndexedIndirectMode, Reading) + [MicroOp.Read(Latch, op.target, op.cb)]
    ensures op.IndirectIndexedRead? ==>
              Program(op) == Finding(IndirectIndexedMode, Reading) + [ReadPageCrossAware(Source.Y, op.target, true, op.cb)]
  {
    hide FetchLo, FetchHi, PointerLo, PointerHi, PointerHiAddY, ReadTo, FetchHiAddIndex;
    assert Program(op) == IndexedReadsProgram(op);
    if op.AbsoluteIndexRead? {
    } else if op.IndexedIndirectRead? {
    } else {
    }
  }

  lemma StoresSplit(op: OpType)
    requires Stores(op)
    ensures op.AbsoluteWrite? ==> Program(op) == Finding(AbsMode, Storing) + [MicroOp.Write(Target.AddressLatch, op.src, true, op.cb)]
    ensures op.ZeroPageWrite? ==> Program(op) == Finding(ZpMode, Storing) + [MicroOp.Write(LoWrite, op.src, true, op.cb)]
    ensures op.ZeroPageIndexWrite? ==>
              Program(op) == Finding(ZpIndexedMode(op.index), Storing) + [MicroOp.Write(LoWrite, op.src, true, op.cb)]
  {
    hide FetchLo, FetchHi, AddIndexToLo;
    assert Program(op) == StoresProgram(op);
    if op.AbsoluteWrite? {
    } else if op.ZeroPageWrite? {
    } else {
    }
  }

  lemma IndexedStoresSplit(op: OpType)
    requires IndexedStores(op) && Entry(op) && !Unstable(op)
    ensures op.AbsoluteIndexWrite? ==>
              Program(op) == Finding(AbsIndexedMode(op.index), Storing)
                + [ReadPageCrossAware(op.index, Target.Nowhere, false, NoOp), MicroOp.Write(Target.AddressLatch, op.src, true, op.cb)]
    ensures op.IndexedIndirectWrite? ==>
              Program(op) == Finding(IndexedIndirectMode, Storing) + [MicroOp.Write(Target.AddressLatch, op.src, true, op.cb)]
    ensures op.IndirectIndexedWrite? ==>
              Program(op) == Finding(IndirectIndexedMode, Storing)
                + [ReadPageCrossAware(Source.Y, Target.Nowhere, false, NoOp), MicroOp.Write(Target.AddressLatch, op.src, true, op.cb)]
  {
    hide FetchLo, FetchHi, PointerLo, PointerHi, PointerHiAddY, FetchHiAddIndex, PointerLoFrom, AddXToPointer;
    assert Program(op) == IndexedStoresProgram(op);
    if op.AbsoluteIndexWrite? {
    } else if op.IndexedIndirectWrite? {
    } else {
    }
  }

  lemma ModifiesSplit(op: OpType)
    requires Modifies(op) && Entry(op)
    ensures op.AbsoluteRMW? ==> Program(op) == Finding(AbsMode, Modifying) + Modifications(Latch, Target.AddressLatch, op.cb, false)
    ensures op.ZeroPageRMW? ==> Program(op) == Finding(ZpMode, Modifying) + Modifications(AddressSource.LO, LoWrite, op.cb, true)
    ensures op.ZeroPageIndexRMW? ==>
              Program(op) == Finding(ZpIndexedMode(op.index), Modifying) + Modifications(AddressSource.LO, LoWrite, op.cb, true)
  {
    hide FetchLo, FetchHi, ReadTo, WriteOld, WriteNew, AddIndexToLo;
    assert Program(op) == ModifiesProgram(op);
    if op.AbsoluteRMW? {
    } else if op.ZeroPageRMW? {
    } else {
    }
  }

  lemma IndexedModifiesSplit(op: OpType)
    requires IndexedModifies(op)
    ensures op.AbsoluteIndexRMW? ==>
              Program(op) == Finding(AbsIndexedMode(op.index), Modifying)
                + ([ReadPageCrossAware(op.index, Target.DataBus, false, NoOp)] + Modifications(Latch, Target.AddressLatch, op.cb, true))
    ensures op.IndexedIndirectRMW? ==>
              Program(op) == Finding(IndexedIndirectMode, Modifying) + Modifications(Latch, Target.AddressLatch, op.cb, true)
    ensures op.IndirectIndexedRMW? ==>
              Program(op) == Finding(IndirectIndexedMode, Modifying)
                + ([ReadPageCrossAware(Source.Y, Target.DataBus, false, NoOp)] + Modifications(Latch, Target.AddressLatch, op.cb, true))
  {
    hide FetchLo, FetchHi, ReadTo, WriteOld, WriteNew, PointerLo, PointerHiAbsolute, PointerHiAddY, FetchHiAddIndex,
      AddXToPointer;
    assert Program(op) == IndexedModifiesProgram(op);
    if op.AbsoluteIndexRMW? {
    } else if op.IndexedIndirectRMW? {
    } else {
    }
  }

  // --- the groups of opcodes

  lemma ReadsRefine(c: Core, op: OpType, vec: word, cfg: Config, dev: Device) returns (r: Core)
    requires Ready(c) && op == Decode(LoadValue(c, c.pc, dev)) && Entry(op) && Reads(op)
    ensures Amounts(c, r, Instruction(c, op, dev), vec, cfg, dev)
  {
    hide Decode, LoadValue, Program, Leads, Finding, Ready, ReadInstruction, Agree, ReadEntry;
    ReadsSplit(op);
    match op {
      case AbsoluteRead(target, cb) => r := ReadsPlain(c, op, AbsMode, target, cb, vec, cfg, dev);
      case ZeroPageRead(target, cb) => r := ReadsPlain(c, op, ZpMode, target, cb, vec, cfg, dev);
      case ZeroPageIndexRead(index, target, cb) => r := ReadsPlain(c, op, ZpIndexedMode(index), target, cb, vec, cfg, dev);
    }
  }

  lemma IndexedReadsRefine(c: Core, op: OpType, vec: word, cfg: Config, dev: Device) returns (r: Core)
    requires Ready(c) && op == Decode(LoadValue(c, c.pc, dev)) && Entry(op) && IndexedReads(op)
    ensures Amounts(c, r, Instruction(c, op, dev), vec, cfg, dev)
  {
    hide Decode, LoadValue, Program, Leads, Finding, Ready, ReadInstruction, Agree, PlainCallback;
    IndexedReadsSplit(op);
    match op {
      case AbsoluteIndexRead(index, target, cb) => r := ReadsIndexed(c, op, AbsIndexedMode(index), index, target, cb, vec, cfg, dev);
      case IndexedIndirectRead(target, cb) => r := ReadsPlain(c, op, IndexedIndirectMode, target, cb, vec, cfg, dev);
      case IndirectIndexedRead(target, cb) => r := ReadsIndexed(c, op, IndirectIndexedMode, Source.Y, target, cb, vec, cfg, dev);
    }
  }

  lemma StoresRefine(c: Core, op: OpType, vec: word, cfg: Config, dev: Device) returns (r: Core)
    requires Ready(c) && op == Decode(LoadValue(c, c.pc, dev)) && Entry(op) && Stores(op)
    ensures Amounts(c, r, Instruction(c, op, dev), vec, cfg, dev)
  {
    hide Decode, LoadValue, Program, Leads, Finding, Ready, WriteInstruction, Agree, StoreEntry;
    StoresSplit(op);
    match op {
      case AbsoluteWrite(src, cb) => r := WritesPlain(c, op, AbsMode, src, cb, vec, cfg, dev);
      case ZeroPageWrite(src, cb) => r := WritesPlain(c, op, ZpMode, src, cb, vec, cfg, dev);
      case ZeroPageIndexWrite(src, index, cb) => r := WritesPlain(c, op, ZpIndexedMode(index), src, cb, vec, cfg, dev);
    }
  }

  lemma IndexedStoresRefine(c: Core, op: OpType, vec: word, cfg: Config, dev: Device) returns (r: Core)
    requires Ready(c) && op == Decode(LoadValue(c, c.pc, dev)) && Stable(op) && IndexedStores(op)
    ensures Amounts(c, r, Instruction(c, op, dev), vec, cfg, dev)
  {
    hide Decode, LoadValue, Program, Leads, Finding, Ready, WriteInstruction, Agree;
    IndexedStoresSplit(op);
    match op {
      case AbsoluteIndexWrite(src, index, cb) => r := WritesIndexed(c, op, AbsIndexedMode(index), index, src, cb, vec, cfg, dev);
      case IndexedIndirectWrite(src, cb) => r := WritesPlain(c, op, IndexedIndirectMode, src, cb, vec, cfg, dev);
      case IndirectIndexedWrite(src, cb) => r := WritesIndexed(c, op, IndirectIndexedMode, Source.Y, src, cb, vec, cfg, dev);
    }
  }

  /** A read-modify-write up to its last write, which goes to `to`. */
  ghost predicate Halfway(c: Core, op: OpType, h: Core, to: Target, pre: bool, vec: word, cfg: Config, dev: Device)
    requires ModifiesMemory(op)
  {
    var mode := ModifyMode(op);
    && Leads(Fetching(c), ModifyInstruction(c, op, mode, op.cb, dev).cycles - 1, Work(h, [WriteNew(to, pre)]), vec, cfg, dev)
    && AboutToWrite(h, to, Resolve(c, mode, false, dev).addr, WrittenBack(c, op, mode, op.cb, dev))
  }

  lemma ModifiesHalfway(c: Core, op: OpType, vec: word, cfg: Config, dev: Device) returns (h: Core, to: Target, pre: bool)
    requires Ready(c) && op == Decode(LoadValue(c, c.pc, dev)) && Entry(op) && Modifies(op)
    ensures Halfway(c, op, h, to, pre, vec, cfg, dev)
  {
    hide Decode, LoadValue, Program, Leads, Finding, Ready, ModifyInstruction, WrittenBack, AboutToWrite, Agree,
      ModifyCallback, Modifications, Resolve;
    ModifiesSplit(op);
    pre := !op.AbsoluteRMW?;
    to := OperandTarget(ModifyMode(op));
    h := ModifiesPlain(c, op, ModifyMode(op), op.cb, pre, vec, cfg, dev);
  }

  lemma IndexedModifiesHalfway(c: Core, op: OpType, vec: word, cfg: Config, dev: Device) returns (h: Core)
    requires Ready(c) && op == Decode(LoadValue(c, c.pc, dev)) && Entry(op) && IndexedModifies(op)
    ensures Halfway(c, op, h, Target.AddressLatch, true, vec, cfg, dev)
  {
    hide Decode, LoadValue, Program, Leads, Finding, Ready, ModifyInstruction, WrittenBack, AboutToWrite, Agree,
      ModifyCallback, Modifications, Resolve;
    IndexedModifiesSplit(op);
    match op {
      case AbsoluteIndexRMW(index, cb) => h := ModifiesIndexed(c, op, AbsIndexedMode(index), index, cb, vec, cfg, dev);
      case IndexedIndirectRMW(cb) => h := ModifiesPlain(c, op, IndexedIndirectMode, cb, true, vec, cfg, dev);
      case IndirectIndexedRMW(cb) => h := ModifiesIndexed(c, op, IndirectIndexedMode, Source.Y, cb, vec, cfg, dev);
    }
  }

  /** Every read-modify-write, whatever its operand, comes to its last write. */
  lemma ComesHalfway(c: Core, op: OpType, vec: word, cfg: Config, dev: Device) returns (h: Core, to: Target, pre: bool)
    requires Ready(c) && op == Decode(LoadValue(c, c.pc, dev)) && Entry(op) && ModifiesMemory(op)
    ensures Halfway(c, op, h, to, pre, vec, cfg, dev)
  {
    hide Halfway, Decode, LoadValue, Entry, Ready;
    if Modifies(op) {
      h, to, pre := ModifiesHalfway(c, op, vec, cfg, dev);
    } else {
      to, pre := Target.AddressLatch, true;
      h := IndexedModifiesHalfway(c, op, vec, cfg, dev);
    }
  }

  lemma ModifiesRefine(c: Core, op: OpType, vec: word, cfg: Config, dev: Device) returns (r: Core)
    requires Ready(c) && op == Decode(LoadValue(c, c.pc, dev)) && Entry(op) && ModifiesMemory(op) && AvoidsDma(c, op, dev)
    ensures Amounts(c, r, Instruction(c, op, dev), vec, cfg, dev)
  {
    hide Decode, LoadValue, Leads, Ready, WrittenBack, AboutToWrite, Agree, Entry, Resolve, Instruction, Store, ResolveCycles;
    var h, to, pre := ComesHalfway(c, op, vec, cfg, dev);
    var mode := ModifyMode(op);
    var m := WrittenBack(c, op, mode, op.cb, dev);
    var o := ModifyInstruction(c, op, mode, op.cb, dev);
    r := WritesNew(Fetching(c), o.cycles - 1, h, to, pre, Resolve(c, mode, false, dev).addr, m, vec, cfg, dev);
    ModifyIs(c, op, dev);
  }

  lemma ModifyIs(c: Core, op: OpType, dev: Device)
    requires ModifiesMemory(op)
    ensures Instruction(c, op, dev) == ModifyInstruction(c, op, ModifyMode(op), op.cb, dev)
  {
    hide ReadInstruction, WriteInstruction, ModifyInstruction, ImmediateInstruction, ImpliedInstruction, PushInstruction,
      PullInstruction, BranchInstruction, CallInstruction, ReturnInstruction, JumpInstruction, JumpIndirectInstruction,
      ReturnFromInterrupt;
  }

  lemma CallsRefine(c: Core, op: OpType, vec: word, cfg: Config, dev: Device) returns (r: Core)
    requires Ready(c) && op == Decode(LoadValue(c, c.pc, dev)) && Entry(op) && (op.JSR? || op.RTS?)
    ensures Amounts(c, r, Instruction(c, op, dev), vec, cfg, dev)
  {
    hide Amounts, Decode, LoadValue, Entry, Ready, CallInstruction, ReturnInstruction;
    if op.JSR? {
      r := CallRefines(c, op, vec, cfg, dev);
    } else {
      r := ReturnRefines(c, op, vec, cfg, dev);
    }
  }

  lemma JumpsRefine(c: Core, op: OpType, vec: word, cfg: Config, dev: Device) returns (r: Core)
    requires Ready(c) && op == Decode(LoadValue(c, c.pc, dev)) && Entry(op) && (op.JmpAbsolute? || op.JmpIndirect?)
    ensures Amounts(c, r, Instruction(c, op, dev), vec, cfg, dev)
  {
    hide Amounts, Decode, LoadValue, Entry, Ready, JumpInstruction, JumpIndirectInstruction;
    if op.JmpAbsolute? {
      r := JumpRefines(c, op, vec, cfg, dev);
    } else {
      r := JumpIndirectRefines(c, op, vec, cfg, dev);
    }
  }

  lemma PullsRefine(c: Core, op: OpType, vec: word, cfg: Config, dev: Device) returns (r: Core)
    requires Ready(c) && op == Decode(LoadValue(c, c.pc, dev)) && Entry(op) && (op.PH? || op.PL? || op.RTI?)
    ensures Amounts(c, r, Instruction(c, op, dev), vec, cfg, dev)
  {
    hide Amounts, Decode, LoadValue, Entry, Ready, PushInstruction, PullInstruction, ReturnFromInterrupt;
    if op.PH? {
      r := PushRefines(c, op, vec, cfg, dev);
    } else if op.PL? {
      r := PullRefines(c, op, vec, cfg, dev);
    } else {
      r := ReturnFromInterruptRefines(c, op, vec, cfg, dev);
    }
  }

  lemma SimpleRefines(c: Core, op: OpType, vec: word, cfg: Config, dev: Device) returns (r: Core)
    requires Ready(c) && op == Decode(LoadValue(c, c.pc, dev)) && Entry(op)
    requires op.AccumulatorOrImplied? || op.ImmediateAddressing? || op.Relative?
    ensures Amounts(c, r, Instruction(c, op, dev), vec, cfg, dev)
  {
    hide Amounts, Decode, LoadValue, Entry, Ready, ImpliedInstruction, ImmediateInstruction, BranchInstruction;
    if op.AccumulatorOrImplied? {
      r := ImpliedRefines(c, op, vec, cfg, dev);
    } else if op.ImmediateAddressing? {
      r := ImmediateRefines(c, op, vec, cfg, dev);
    } else {
      BranchProgram(op);
      r := BranchRefines(c, op, vec, cfg, dev);
    }
  }

  /** Run one after another, the micro-operations of a stable opcode amount to its instruction. */
  lemma ProgramRefines(c: Core, op: OpType, vec: word, cfg: Config, dev: Device) returns (r: Core)
    requires Ready(c) && op == Decode(LoadValue(c, c.pc, dev)) && Stable(op) && AvoidsDma(c, op, dev)
    ensures Amounts(c, r, Instruction(c, op, dev), vec, cfg, dev)
  {
    hide Amounts, Decode, LoadValue, Entry, Ready, Instruction, AvoidsDma;
    if Reads(op) {
      r := ReadsRefine(c, op, vec, cfg, dev);
    } else if IndexedReads(op) {
      r := IndexedReadsRefine(c, op, vec, cfg, dev);
    } else if Stores(op) {
      r := StoresRefine(c, op, vec, cfg, dev);
    } else if IndexedStores(op) {
      r := IndexedStoresRefine(c, op, vec, cfg, dev);
    } else if ModifiesMemory(op) {
      r := ModifiesRefine(c, op, vec, cfg, dev);
    } else if op.JSR? || op.RTS? {
      r := CallsRefine(c, op, vec, cfg, dev);
    } else if Jumps(op) {
      r := JumpsRefine(c, op, vec, cfg, dev);
    } else if op.PH? || op.PL? || op.RTI? {
      r := PullsRefine(c, op, vec, cfg, dev);
    } else {
      r := SimpleRefines(c, op, vec, cfg, dev);
    }
  }

  lemma {:induction false} LeadsRest(w: Work, k: nat, m: Work, r: Work, vec: word, cfg: Config, dev: Device)
    requires Leads(w, k, m, vec, cfg, dev) && Leads(w, k + 1, r, vec, cfg, dev)
    ensures Leads(m, 1, r, vec, cfg, dev)
    decreases k
  {
    hide Exec, Ordinary, Ready;
    if k > 0 {
      var e := Exec(w.core, w.todo[0], vec, cfg, dev);
      LeadsRest(Work(e.core, w.todo[1..] + e.push), k - 1, m, r, vec, cfg, dev);
    }
  }

  /** The micro-operations of a read-modify-write of $4014 do not amount to it: a DMA comes between. */
  lemma ClashAmountsToNothing(c: Core, op: OpType, r: Core, vec: word, cfg: Config, dev: Device)
    requires Ready(c) && op == Decode(LoadValue(c, c.pc, dev)) && Stable(op) && !AvoidsDma(c, op, dev)
    ensures !Amounts(c, r, Instruction(c, op, dev), vec, cfg, dev)
  {
    hide Decode, LoadValue, Entry, WrittenBack, Agree, Resolve, Instruction, Exec, BusTarget, TargetAddress, ModifyInstruction;
    var h, to, pre := ComesHalfway(c, op, vec, cfg, dev);
    ModifyIs(c, op, dev);
    ModifyLong(c, op, dev);
    var k := Instruction(c, op, dev).cycles - 1;
    if Amounts(c, r, Instruction(c, op, dev), vec, cfg, dev) {
      LeadsRest(Fetching(c), k, Work(h, [WriteNew(to, pre)]), Work(r, []), vec, cfg, dev);
      assert false;
    }
  }

  lemma ModifyLong(c: Core, op: OpType, dev: Device)
    requires ModifiesMemory(op)
    ensures ModifyInstruction(c, op, ModifyMode(op), op.cb, dev).cycles > 1
  {
    hide WrittenBack, Resolve, Store;
  }

  /** The programs of the stable opcodes amount to their instructions exactly where no DMA comes between. */
  lemma ProgramAmountsExactly(c: Core, op: OpType, vec: word, cfg: Config, dev: Device)
    requires Ready(c) && op == Decode(LoadValue(c, c.pc, dev)) && Stable(op)
    ensures (exists r :: Amounts(c, r, Instruction(c, op, dev), vec, cfg, dev)) <==> AvoidsDma(c, op, dev)
  {
    hide Amounts, Decode, LoadValue, Stable, Ready, Instruction, AvoidsDma;
    if AvoidsDma(c, op, dev) {
      var r := ProgramRefines(c, op, vec, cfg, dev);
    } else {
      forall r
        ensures !Amounts(c, r, Instruction(c, op, dev), vec, cfg, dev)
      {
        ClashAmountsToNothing(c, op, r, vec, cfg, dev);
      }
    }
  }

  // --- where an instruction leads

  predicate Transfers(op: OpType) {
    op.Relative? || op.RTI? || Jumps(op)
  }

  lemma CalledPc(c: Core, cb: Callback)
    ensures Called(c, cb).core.pc == c.pc
  {
    hide AluA, AluX, AluY, AluSp, AluP, AluDb, AluHi, Holds;
  }

  lemma AluPc(c: Core, cb: Callback)
    ensures Alu(c, cb).pc == c.pc
  {
    hide AluA, AluX, AluY, AluSp, AluP, AluDb, AluHi;
  }

  lemma StorePc(c: Core, addr: word, v: byte)
    ensures Store(c, addr, v).pc == c.pc
  {
  }

  lemma ReadEntryTarget(target: Target, cb: Callback)
    requires ReadEntry(target, cb)
    ensures ReadTarget(target)
  {
  }

  lemma ReadFalls(c: Core, op: OpType, mode: Mode, target: Target, cb: Callback, dev: Device)
    requires ReadEntry(target, cb)
    ensures ReadInstruction(c, op, mode, target, cb, dev).core.pc == Behind(c, op)
  {
    hide Resolve, Called, WriteRegister, Behind, Look, Answer, ReadEntry, ReadTarget;
    var o := Resolve(c, mode, true, dev);
    var l := if InstructionSet.IsIndexed(mode) && Crossed(o) then Look(o.log, o.unfixed, dev) else o.log;
    var b := Begun(c, op, Look(l, o.addr, dev));
    ReadEntryTarget(target, cb);
    RegisterPc(b, target, Answer(l, o.addr, dev), b.pc);
    CalledPc(WriteRegister(b, target, Answer(l, o.addr, dev)), cb);
  }

  lemma WriteFalls(c: Core, op: OpType, mode: Mode, src: Source, cb: Callback, dev: Device)
    ensures WriteInstruction(c, op, mode, src, cb, dev).core.pc == Behind(c, op)
  {
    hide Resolve, Behind, Look, StoredByte;
  }

  lemma ModifyFalls(c: Core, op: OpType, mode: Mode, cb: Callback, dev: Device)
    ensures ModifyInstruction(c, op, mode, cb, dev).core.pc == Behind(c, op)
  {
    hide Resolve, Behind, Look, Answer, Alu, Store;
    var o := Resolve(c, mode, false, dev);
    var l := if InstructionSet.IsIndexed(mode) then Look(o.log, o.unfixed, dev) else o.log;
    var v := Answer(l, o.addr, dev);
    var b := Begun(c, op, Look(l, o.addr, dev)).(db := v);
    StorePc(b, o.addr, v);
    AluPc(Store(b, o.addr, v), cb);
    StorePc(Alu(Store(b, o.addr, v), cb), o.addr, Alu(Store(b, o.addr, v), cb).db);
  }

  lemma ShortFalls(c: Core, op: OpType, dev: Device)
    requires Entry(op) && (op.AccumulatorOrImplied? || op.ImmediateAddressing? || op.PH? || op.PL?)
    ensures Instruction(c, op, dev).core.pc == Behind(c, op)
  {
    hide Called, WriteRegister, Look, Answer, ReadTarget, Store, StatusBrk;
    match op {
      case AccumulatorOrImplied(cb) =>
        CalledPc(Begun(c, op, Look(Look(c.log, c.pc, dev), Next(c.pc), dev)), cb);
      case ImmediateAddressing(target, cb) =>
        var l := Look(c.log, c.pc, dev);
        var b := Begun(c, op, Look(l, Next(c.pc), dev));
        ReadEntryTarget(target, cb);
        RegisterPc(b, target, Answer(l, Next(c.pc), dev), b.pc);
        CalledPc(WriteRegister(b, target, Answer(l, Next(c.pc), dev)), cb);
      case PH(src, _) =>
        var k := Peeked(c, op, dev);
        StorePc(k, StackAddress(k.sp), if src.A? then c.a else StatusBrk(c.p));
        OneBehind(c, op);
      case PL(target, _) =>
        var k := Peeked(c, op, dev);
        PulledPc(Pulled(k, dev), target, PulledByte(k, dev));
        OneBehind(c, op);
    }
  }

  lemma PulledPc(c: Core, target: Target, v: byte)
    requires target.A? || target.P?
    ensures WriteRegister(c, target, v).pc == c.pc
  {
    hide TargetStatus;
  }

  lemma OneBehind(c: Core, op: OpType)
    requires OperandBytes(op) == 0
    ensures Behind(c, op) == Next(c.pc)
  {
    assert Plus(c.pc, 0) == c.pc;
  }

  lemma ReadsFall(c: Core, op: OpType, dev: Device)
    requires Entry(op) && Reads(op)
    ensures Instruction(c, op, dev).core.pc == Behind(c, op)
  {
    hide Behind, ReadEntry, Independent, IndexRegister, ReadInstruction, WriteInstruction, ModifyInstruction,
      ImmediateInstruction, ImpliedInstruction, PushInstruction, PullInstruction, BranchInstruction, CallInstruction,
      ReturnInstruction, JumpInstruction, JumpIndirectInstruction, ReturnFromInterrupt;
    if op.AbsoluteRead? {
      ReadFalls(c, op, AbsMode, op.target, op.cb, dev);
    } else if op.ZeroPageRead? {
      ReadFalls(c, op, ZpMode, op.target, op.cb, dev);
    } else {
      ReadFalls(c, op, ZpIndexedMode(op.index), op.target, op.cb, dev);
    }
  }

  lemma IndexedReadsFall(c: Core, op: OpType, dev: Device)
    requires Entry(op) && IndexedReads(op)
    ensures Instruction(c, op, dev).core.pc == Behind(c, op)
  {
    hide Behind, ReadEntry, Independent, IndexRegister, ReadInstruction, WriteInstruction, ModifyInstruction,
      ImmediateInstruction, ImpliedInstruction, PushInstruction, PullInstruction, BranchInstruction, CallInstruction,
      ReturnInstruction, JumpInstruction, JumpIndirectInstruction, ReturnFromInterrupt;
    if op.AbsoluteIndexRead? {
      ReadFalls(c, op, AbsIndexedMode(op.index), op.target, op.cb, dev);
    } else if op.IndexedIndirectRead? {
      ReadFalls(c, op, IndexedIndirectMode, op.target, op.cb, dev);
    } else {
      ReadFalls(c, op, IndirectIndexedMode, op.target, op.cb, dev);
    }
  }

  lemma StoresFall(c: Core, op: OpType, dev: Device)
    requires Stores(op)
    ensures Instruction(c, op, dev).core.pc == Behind(c, op)
  {
    hide Behind, ReadEntry, Independent, IndexRegister, ReadInstruction, WriteInstruction, ModifyInstruction,
      ImmediateInstruction, ImpliedInstruction, PushInstruction, PullInstruction, BranchInstruction, CallInstruction,
      ReturnInstruction, JumpInstruction, JumpIndirectInstruction, ReturnFromInterrupt;
    if op.AbsoluteWrite? {
      WriteFalls(c, op, AbsMode, op.src, op.cb, dev);
    } else if op.ZeroPageWrite? {
      WriteFalls(c, op, ZpMode, op.src, op.cb, dev);
    } else {
      WriteFalls(c, op, ZpIndexedMode(op.index), op.src, op.cb, dev);
    }
  }

  lemma IndexedStoresFall(c: Core, op: OpType, dev: Device)
    requires IndexedStores(op)
    ensures Instruction(c, op, dev).core.pc == Behind(c, op)
  {
    hide Behind, ReadEntry, Independent, IndexRegister, ReadInstruction, WriteInstruction, ModifyInstruction,
      ImmediateInstruction, ImpliedInstruction, PushInstruction, PullInstruction, BranchInstruction, CallInstruction,
      ReturnInstruction, JumpInstruction, JumpIndirectInstruction, ReturnFromInterrupt;
    if op.AbsoluteIndexWrite? {
      WriteFalls(c, op, AbsIndexedMode(op.index), op.src, op.cb, dev);
    } else if op.IndexedIndirectWrite? {
      WriteFalls(c, op, IndexedIndirectMode, op.src, op.cb, dev);
    } else {
      WriteFalls(c, op, IndirectIndexedMode, op.src, op.cb, dev);
    }
  }

  lemma ModifiesFall(c: Core, op: OpType, dev: Device)
    requires Modifies(op)
    ensures Instruction(c, op, dev).core.pc == Behind(c, op)
  {
    hide Behind, ReadEntry, Independent, IndexRegister, ReadInstruction, WriteInstruction, ModifyInstruction,
      ImmediateInstruction, ImpliedInstruction, PushInstruction, PullInstruction, BranchInstruction, CallInstruction,
      ReturnInstruction, JumpInstruction, JumpIndirectInstruction, ReturnFromInterrupt;
    if op.AbsoluteRMW? {
      ModifyFalls(c, op, AbsMode, op.cb, dev);
    } else if op.ZeroPageRMW? {
      ModifyFalls(c, op, ZpMode, op.cb, dev);
    } else {
      ModifyFalls(c, op, ZpIndexedMode(op.index), op.cb, dev);
    }
  }

  lemma IndexedModifiesFall(c: Core, op: OpType, dev: Device)
    requires IndexedModifies(op)
    ensures Instruction(c, op, dev).core.pc == Behind(c, op)
  {
    hide Behind, ReadEntry, Independent, IndexRegister, ReadInstruction, WriteInstruction, ModifyInstruction,
      ImmediateInstruction, ImpliedInstruction, PushInstruction, PullInstruction, BranchInstruction, CallInstruction,
      ReturnInstruction, JumpInstruction, JumpIndirectInstruction, ReturnFromInterrupt;
    if op.AbsoluteIndexRMW? {
      ModifyFalls(c, op, AbsIndexedMode(op.index), op.cb, dev);
    } else if op.IndexedIndirectRMW? {
      ModifyFalls(c, op, IndexedIndirectMode, op.cb, dev);
    } else {
      ModifyFalls(c, op, IndirectIndexedMode, op.cb, dev);
    }
  }

  /** Every instruction that is no jump, call, return or branch leads behind its operand bytes. */
  lemma FallsThrough(c: Core, op: OpType, dev: Device)
    requires Stable(op) && !Transfers(op)
    ensures Instruction(c, op, dev).core.pc == Plus(c.pc, 1 + OperandBytes(op))
  {
    hide Entry, Instruction, Behind, OperandBytes;
    if Reads(op) {
      ReadsFall(c, op, dev);
    } else if IndexedReads(op) {
      IndexedReadsFall(c, op, dev);
    } else if Stores(op) {
      StoresFall(c, op, dev);
    } else if IndexedStores(op) {
      IndexedStoresFall(c, op, dev);
    } else if Modifies(op) {
      ModifiesFall(c, op, dev);
    } else if IndexedModifies(op) {
      IndexedModifiesFall(c, op, dev);
    } else {
      ShortFalls(c, op, dev);
    }
    assert Behind(c, op) == Plus(c.pc, 1 + OperandBytes(op)) by { BehindIs(c, op); }
  }

  lemma BehindIs(c: Core, op: OpType)
    ensures Behind(c, op) == Plus(c.pc, 1 + OperandBytes(op))
  {
    hide Plus, OperandBytes;
  }
}
