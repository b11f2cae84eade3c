/** The opcode table, and the program of micro-operations each addressing mode schedules. */
module Opcodes {
  import opened Bits
  import opened CpuTypes

  function Decode(opcode: byte): OpType {
    Table(opcode as int)
  }

  /** The table, sixteen opcodes to a row. */
  function Table(opcode: nat): OpType
    requires opcode < 256
  {
    match opcode / 16
    case 0 => Row0(opcode % 16)
    case 1 => Row1(opcode % 16)
    case 2 => Row2(opcode % 16)
    case 3 => Row3(opcode % 16)
    case 4 => Row4(opcode % 16)
    case 5 => Row5(opcode % 16)
    case 6 => Row6(opcode % 16)
    case 7 => Row7(opcode % 16)
    case 8 => Row8(opcode % 16)
    case 9 => Row9(opcode % 16)
    case 10 => RowA(opcode % 16)
    case 11 => RowB(opcode % 16)
    case 12 => RowC(opcode % 16)
    case 13 => RowD(opcode % 16)
    case 14 => RowE(opcode % 16)
    case _ => RowF(opcode % 16)
  }

  function Row0(n: nat): OpType {
    match n
    case 0 => OpType.BRK(NoOp)
    case 1 => IndexedIndirectRead(Target.DataBus, Callback.ORA)
    case 2 => ImmediateAddressing(Target.Nowhere, Callback.JAM)
    case 3 => IndexedIndirectRMW(Callback.SLO)
    case 4 => ZeroPageRead(Target.Nowhere, NoOp)
    case 5 => ZeroPageRead(Target.DataBus, Callback.ORA)
    case 6 => ZeroPageRMW(Target.DataBus, Callback.ASL)
    case 7 => ZeroPageRMW(Target.DataBus, Callback.SLO)
    case 8 => OpType.PH(Source.PBrk, NoOp)
    case 9 => ImmediateAddressing(Target.DataBus, Callback.ORA)
    case 10 => AccumulatorOrImplied(Callback.ASL)
    case 11 => ImmediateAddressing(Target.DataBus, Callback.ANC)
    case 12 => AbsoluteRead(Target.Nowhere, NoOp)
    case 13 => AbsoluteRead(Target.DataBus, Callback.ORA)
    case 14 => AbsoluteRMW(Target.DataBus, Callback.ASL)
    case _ => AbsoluteRMW(Target.DataBus, Callback.SLO)
  }

  function Row1(n: nat): OpType {
    match n
    case 0 => Relative(BRANCH(NegativeClear))
    case 1 => IndirectIndexedRead(Target.DataBus, Callback.ORA)
    case 2 => ImmediateAddressing(Target.Nowhere, Callback.JAM)
    case 3 => IndirectIndexedRMW(Callback.SLO)
    case 4 => ZeroPageIndexRead(Source.X, Target.Nowhere, NoOp)
    case 5 => ZeroPageIndexRead(Source.X, Target.DataBus, Callback.ORA)
    case 6 => ZeroPageIndexRMW(Source.X, Callback.ASL)
    case 7 => ZeroPageIndexRMW(Source.X, Callback.SLO)
    case 8 => AccumulatorOrImplied(Callback.CLC)
    case 9 => AbsoluteIndexRead(Source.Y, Target.DataBus, Callback.ORA)
    case 10 => AccumulatorOrImplied(NoOp)
    case 11 => AbsoluteIndexRMW(Source.Y, Callback.SLO)
    case 12 => AbsoluteIndexRead(Source.X, Target.Nowhere, NoOp)
    case 13 => AbsoluteIndexRead(Source.X, Target.DataBus, Callback.ORA)
    case 14 => AbsoluteIndexRMW(Source.X, Callback.ASL)
    case _ => AbsoluteIndexRMW(Source.X, Callback.SLO)
  }

  function Row2(n: nat): OpType {
    match n
    case 0 => OpType.JSR(NoOp)
    case 1 => IndexedIndirectRead(Target.DataBus, Callback.AND)
    case 2 => ImmediateAddressing(Target.Nowhere, Callback.JAM)
    case 3 => IndexedIndirectRMW(Callback.RLA)
    case 4 => ZeroPageRead(Target.DataBus, Callback.BIT)
    case 5 => ZeroPageRead(Target.DataBus, Callback.AND)
    case 6 => ZeroPageRMW(Target.DataBus, Callback.ROL)
    case 7 => ZeroPageRMW(Target.DataBus, Callback.RLA)
    case 8 => OpType.PL(Target.P, NoOp)
    case 9 => ImmediateAddressing(Target.DataBus, Callback.AND)
    case 10 => AccumulatorOrImplied(Callback.ROL)
    case 11 => ImmediateAddressing(Target.DataBus, Callback.ANC)
    case 12 => AbsoluteRead(Target.DataBus, Callback.BIT)
    case 13 => AbsoluteRead(Target.DataBus, Callback.AND)
    case 14 => AbsoluteRMW(Target.DataBus, Callback.ROL)
    case _ => AbsoluteRMW(Target.DataBus, Callback.RLA)
  }

  function Row3(n: nat): OpType {
    match n
    case 0 => Relative(BRANCH(NegativeSet))
    case 1 => IndirectIndexedRead(Target.DataBus, Callback.AND)
    case 2 => ImmediateAddressing(Target.Nowhere, Callback.JAM)
    case 3 => IndirectIndexedRMW(Callback.RLA)
    case 4 => ZeroPageIndexRead(Source.X, Target.Nowhere, NoOp)
    case 5 => ZeroPageIndexRead(Source.X, Target.DataBus, Callback.AND)
    case 6 => ZeroPageIndexRMW(Source.X, Callback.ROL)
    case 7 => ZeroPageIndexRMW(Source.X, Callback.RLA)
    case 8 => AccumulatorOrImplied(Callback.SEC)
    case 9 => AbsoluteIndexRead(Source.Y, Target.DataBus, Callback.AND)
    case 10 => AccumulatorOrImplied(NoOp)
    case 11 => AbsoluteIndexRMW(Source.Y, Callback.RLA)
    case 12 => AbsoluteIndexRead(Source.X, Target.Nowhere, NoOp)
    case 13 => AbsoluteIndexRead(Source.X, Target.DataBus, Callback.AND)
    case 14 => AbsoluteIndexRMW(Source.X, Callback.ROL)
    case _ => AbsoluteIndexRMW(Source.X, Callback.RLA)
  }

  function Row4(n: nat): OpType {
    match n
    case 0 => OpType.RTI(NoOp)
    case 1 => IndexedIndirectRead(Target.DataBus, Callback.EOR)
    case 2 => ImmediateAddressing(Target.Nowhere, Callback.JAM)
    case 3 => IndexedIndirectRMW(Callback.SRE)
    case 4 => ZeroPageRead(Target.Nowhere, NoOp)
    case 5 => ZeroPageRead(Target.DataBus, Callback.EOR)
    case 6 => ZeroPageRMW(Target.DataBus, Callback.LSR)
    case 7 => ZeroPageRMW(Target.DataBus, Callback.SRE)
    case 8 => OpType.PH(Source.A, NoOp)
    case 9 => ImmediateAddressing(Target.DataBus, Callback.EOR)
    case 10 => AccumulatorOrImplied(Callback.LSR)
    case 11 => ImmediateAddressing(Target.DataBus, Callback.ALR)
    case 12 => JmpAbsolute(NoOp)
    case 13 => AbsoluteRead(Target.DataBus, Callback.EOR)
    case 14 => AbsoluteRMW(Target.DataBus, Callback.LSR)
    case _ => AbsoluteRMW(Target.DataBus, Callback.SRE)
  }

  function Row5(n: nat): OpType {
    match n
    case 0 => Relative(BRANCH(OverflowClear))
    case 1 => IndirectIndexedRead(Target.DataBus, Callback.EOR)
    case 2 => ImmediateAddressing(Target.Nowhere, Callback.JAM)
    case 3 => IndirectIndexedRMW(Callback.SRE)
    case 4 => ZeroPageIndexRead(Source.X, Target.Nowhere, NoOp)
    case 5 => ZeroPageIndexRead(Source.X, Target.DataBus, Callback.EOR)
    case 6 => ZeroPageIndexRMW(Source.X, Callback.LSR)
    case 7 => ZeroPageIndexRMW(Source.X, Callback.SRE)
    case 8 => AccumulatorOrImplied(Callback.CLI)
    case 9 => AbsoluteIndexRead(Source.Y, Target.DataBus, Callback.EOR)
    case 10 => AccumulatorOrImplied(NoOp)
    case 11 => AbsoluteIndexRMW(Source.Y, Callback.SRE)
    case 12 => AbsoluteIndexRead(Source.X, Target.Nowhere, NoOp)
    case 13 => AbsoluteIndexRead(Source.X, Target.DataBus, Callback.EOR)
    case 14 => AbsoluteIndexRMW(Source.X, Callback.LSR)
    case _ => AbsoluteIndexRMW(Source.X, Callback.SRE)
  }

  function Row6(n: nat): OpType {
    match n
    case 0 => OpType.RTS(NoOp)
    case 1 => IndexedIndirectRead(Target.DataBus, Callback.ADC)
    case 2 => ImmediateAddressing(Target.Nowhere, Callback.JAM)
    case 3 => IndexedIndirectRMW(Callback.RRA)
    case 4 => ZeroPageRead(Target.Nowhere, NoOp)
    case 5 => ZeroPageRead(Target.DataBus, Callback.ADC)
    case 6 => ZeroPageRMW(Target.DataBus, Callback.ROR)
    case 7 => ZeroPageRMW(Target.DataBus, Callback.RRA)
    case 8 => OpType.PL(Target.A, NoOp)
    case 9 => ImmediateAddressing(Target.DataBus, Callback.ADC)
    case 10 => AccumulatorOrImplied(Callback.ROR)
    case 11 => ImmediateAddressing(Target.DataBus, Callback.ARR)
    case 12 => JmpIndirect(NoOp)
    case 13 => AbsoluteRead(Target.DataBus, Callback.ADC)
    case 14 => AbsoluteRMW(Target.DataBus, Callback.ROR)
    case _ => AbsoluteRMW(Target.DataBus, Callback.RRA)
  }

  function Row7(n: nat): OpType {
    match n
    case 0 => Relative(BRANCH(OverflowSet))
    case 1 => IndirectIndexedRead(Target.DataBus, Callback.ADC)
    case 2 => ImmediateAddressing(Target.Nowhere, Callback.JAM)
    case 3 => IndirectIndexedRMW(Callback.RRA)
    case 4 => ZeroPageIndexRead(Source.X, Target.Nowhere, NoOp)
    case 5 => ZeroPageIndexRead(Source.X, Target.DataBus, Callback.ADC)
    case 6 => ZeroPageIndexRMW(Source.X, Callback.ROR)
    case 7 => ZeroPageIndexRMW(Source.X, Callback.RRA)
    case 8 => AccumulatorOrImplied(Callback.SEI)
    case 9 => AbsoluteIndexRead(Source.Y, Target.DataBus, Callback.ADC)
    case 10 => AccumulatorOrImplied(NoOp)
    case 11 => AbsoluteIndexRMW(Source.Y, Callback.RRA)
    case 12 => AbsoluteIndexRead(Source.X, Target.Nowhere, NoOp)
    case 13 => AbsoluteIndexRead(Source.X, Target.DataBus, Callback.ADC)
    case 14 => AbsoluteIndexRMW(Source.X, Callback.ROR)
    case _ => AbsoluteIndexRMW(Source.X, Callback.RRA)
  }

  function Row8(n: nat): OpType {
    match n
    case 0 => ImmediateAddressing(Target.Nowhere, NoOp)
    case 1 => IndexedIndirectWrite(Source.A, NoOp)
    case 2 => ImmediateAddressing(Target.Nowhere, NoOp)
    case 3 => IndexedIndirectWrite(Source.DataBus, Callback.SAX)
    case 4 => ZeroPageWrite(Source.Y, NoOp)
    case 5 => ZeroPageWrite(Source.A, NoOp)
    case 6 => ZeroPageWrite(Source.X, NoOp)
    case 7 => ZeroPageWrite(Source.DataBus, Callback.SAX)
    case 8 => AccumulatorOrImplied(Callback.DEY)
    case 9 => ImmediateAddressing(Target.Nowhere, NoOp)
    case 10 => AccumulatorOrImplied(Callback.TXA)
    case 11 => ImmediateAddressing(Target.DataBus, Callback.ANE)
    case 12 => AbsoluteWrite(Source.Y, NoOp)
    case 13 => AbsoluteWrite(Source.A, NoOp)
    case 14 => AbsoluteWrite(Source.X, NoOp)
    case _ => AbsoluteWrite(Source.DataBus, Callback.SAX)
  }

  function Row9(n: nat): OpType {
    match n
    case 0 => Relative(BRANCH(CarryClear))
    case 1 => IndirectIndexedWrite(Source.A, NoOp)
    case 2 => ImmediateAddressing(Target.Nowhere, Callback.JAM)
    case 3 => IndirectIndexedWriteSHA
    case 4 => ZeroPageIndexWrite(Source.Y, Source.X, NoOp)
    case 5 => ZeroPageIndexWrite(Source.A, Source.X, NoOp)
    case 6 => ZeroPageIndexWrite(Source.X, Source.Y, NoOp)
    case 7 => ZeroPageIndexWrite(Source.DataBus, Source.Y, Callback.SAX)
    case 8 => AccumulatorOrImplied(Callback.TYA)
    case 9 => AbsoluteIndexWrite(Source.A, Source.Y, NoOp)
    case 10 => AccumulatorOrImplied(Callback.TXS)
    case 11 => AbsoluteIndexCorruptingWrite(true)
    case 12 => AbsoluteIndexWrite(Source.DataBus, Source.X, Callback.SHY)
    case 13 => AbsoluteIndexWrite(Source.A, Source.X, NoOp)
    case 14 => AbsoluteIndexWrite(Source.DataBus, Source.Y, Callback.SHX)
    case _ => AbsoluteIndexCorruptingWrite(false)
  }

  function RowA(n: nat): OpType {
    match n
    case 0 => ImmediateAddressing(Target.Y, NoOp)
    case 1 => IndexedIndirectRead(Target.A, NoOp)
    case 2 => ImmediateAddressing(Target.X, NoOp)
    case 3 => IndexedIndirectRead(Target.DataBus, Callback.LAX)
    case 4 => ZeroPageRead(Target.Y, NoOp)
    case 5 => ZeroPageRead(Target.A, NoOp)
    case 6 => ZeroPageRead(Target.X, NoOp)
    case 7 => ZeroPageRead(Target.DataBus, Callback.LAX)
    case 8 => AccumulatorOrImplied(Callback.TAY)
    case 9 => ImmediateAddressing(Target.A, NoOp)
    case 10 => AccumulatorOrImplied(Callback.TAX)
    case 11 => ImmediateAddressing(Target.DataBus, Callback.LXA)
    case 12 => AbsoluteRead(Target.Y, NoOp)
    case 13 => AbsoluteRead(Target.A, NoOp)
    case 14 => AbsoluteRead(Target.X, NoOp)
    case _ => AbsoluteRead(Target.DataBus, Callback.LAX)
  }

  function RowB(n: nat): OpType {
    match n
    case 0 => Relative(BRANCH(CarrySet))
    case 1 => IndirectIndexedRead(Target.A, NoOp)
    case 2 => ImmediateAddressing(Target.Nowhere, Callback.JAM)
    case 3 => IndirectIndexedRead(Target.DataBus, Callback.LAX)
    case 4 => ZeroPageIndexRead(Source.X, Target.Y, NoOp)
    case 5 => ZeroPageIndexRead(Source.X, Target.A, NoOp)
    case 6 => ZeroPageIndexRead(Source.Y, Target.X, NoOp)
    case 7 => ZeroPageIndexRead(Source.Y, Target.DataBus, Callback.LAX)
    case 8 => AccumulatorOrImplied(Callback.CLV)
    case 9 => AbsoluteIndexRead(Source.Y, Target.A, NoOp)
    case 10 => AccumulatorOrImplied(Callback.TSX)
    case 11 => AbsoluteIndexRead(Source.Y, Target.DataBus, Callback.LAS)
    case 12 => AbsoluteIndexRead(Source.X, Target.Y, NoOp)
    case 13 => AbsoluteIndexRead(Source.X, Target.A, NoOp)
    case 14 => AbsoluteIndexRead(Source.Y, Target.X, NoOp)
    case _ => AbsoluteIndexRead(Source.Y, Target.DataBus, Callback.LAX)
  }

  function RowC(n: nat): OpType {
    match n
    case 0 => ImmediateAddressing(Target.DataBus, Callback.CPY)
    case 1 => IndexedIndirectRead(Target.DataBus, Callback.CMP)
    case 2 => ImmediateAddressing(Target.Nowhere, NoOp)
    case 3 => IndexedIndirectRMW(Callback.DCP)
    case 4 => ZeroPageRead(Target.DataBus, Callback.CPY)
    case 5 => ZeroPageRead(Target.DataBus, Callback.CMP)
    case 6 => ZeroPageRMW(Target.DataBus, Callback.DEC)
    case 7 => ZeroPageRMW(Target.DataBus, Callback.DCP)
    case 8 => AccumulatorOrImplied(Callback.INY)
    case 9 => ImmediateAddressing(Target.DataBus, Callback.CMP)
    case 10 => AccumulatorOrImplied(Callback.DEX)
    case 11 => ImmediateAddressing(Target.DataBus, Callback.SBX)
    case 12 => AbsoluteRead(Target.DataBus, Callback.CPY)
    case 13 => AbsoluteRead(Target.DataBus, Callback.CMP)
    case 14 => AbsoluteRMW(Target.DataBus, Callback.DEC)
    case _ => AbsoluteRMW(Target.DataBus, Callback.DCP)
  }

  function RowD(n: nat): OpType {
    match n
    case 0 => Relative(BRANCH(ZeroClear))
    case 1 => IndirectIndexedRead(Target.DataBus, Callback.CMP)
    case 2 => ImmediateAddressing(Target.Nowhere, Callback.JAM)
    case 3 => IndirectIndexedRMW(Callback.DCP)
    case 4 => ZeroPageIndexRead(Source.X, Target.Nowhere, NoOp)
    case 5 => ZeroPageIndexRead(Source.X, Target.DataBus, Callback.CMP)
    case 6 => ZeroPageIndexRMW(Source.X, Callback.DEC)
    case 7 => ZeroPageIndexRMW(Source.X, Callback.DCP)
    case 8 => AccumulatorOrImplied(Callback.CLD)
    case 9 => AbsoluteIndexRead(Source.Y, Target.DataBus, Callback.CMP)
    case 10 => AccumulatorOrImplied(NoOp)
    case 11 => AbsoluteIndexRMW(Source.Y, Callback.DCP)
    case 12 => AbsoluteIndexRead(Source.X, Target.Nowhere, NoOp)
    case 13 => AbsoluteIndexRead(Source.X, Target.DataBus, Callback.CMP)
    case 14 => AbsoluteIndexRMW(Source.X, Callback.DEC)
    case _ => AbsoluteIndexRMW(Source.X, Callback.DCP)
  }

  function RowE(n: nat): OpType {
    match n
    case 0 => ImmediateAddressing(Target.DataBus, Callback.CPX)
    case 1 => IndexedIndirectRead(Target.DataBus, Callback.SBC)
    case 2 => ImmediateAddressing(Target.Nowhere, NoOp)
    case 3 => IndexedIndirectRMW(Callback.ISB)
    case 4 => ZeroPageRead(Target.DataBus, Callback.CPX)
    case 5 => ZeroPageRead(Target.DataBus, Callback.SBC)
    case 6 => ZeroPageRMW(Target.DataBus, Callback.INC)
    case 7 => ZeroPageRMW(Target.DataBus, Callback.ISB)
    case 8 => AccumulatorOrImplied(Callback.INX)
    case 9 => ImmediateAddressing(Target.DataBus, Callback.SBC)
    case 10 => AccumulatorOrImplied(NoOp)
    case 11 => ImmediateAddressing(Target.DataBus, Callback.SBC)
    case 12 => AbsoluteRead(Target.DataBus, Callback.CPX)
    case 13 => AbsoluteRead(Target.DataBus, Callback.SBC)
    case 14 => AbsoluteRMW(Target.DataBus, Callback.INC)
    case _ => AbsoluteRMW(Target.DataBus, Callback.ISB)
  }

  function RowF(n: nat): OpType {
    match n
    case 0 => Relative(BRANCH(ZeroSet))
    case 1 => IndirectIndexedRead(Target.DataBus, Callback.SBC)
    case 2 => ImmediateAddressing(Target.Nowhere, Callback.JAM)
    case 3 => IndirectIndexedRMW(Callback.ISB)
    case 4 => ZeroPageIndexRead(Source.X, Target.Nowhere, NoOp)
    case 5 => ZeroPageIndexRead(Source.X, Target.DataBus, Callback.SBC)
    case 6 => ZeroPageIndexRMW(Source.X, Callback.INC)
    case 7 => ZeroPageIndexRMW(Source.X, Callback.ISB)
    case 8 => AccumulatorOrImplied(Callback.SED)
    case 9 => AbsoluteIndexRead(Source.Y, Target.DataBus, Callback.SBC)
    case 10 => AccumulatorOrImplied(NoOp)
    case 11 => AbsoluteIndexRMW(Source.Y, Callback.ISB)
    case 12 => AbsoluteIndexRead(Source.X, Target.Nowhere, NoOp)
    case 13 => AbsoluteIndexRead(Source.X, Target.DataBus, Callback.SBC)
    case 14 => AbsoluteIndexRMW(Source.X, Callback.INC)
    case _ => AbsoluteIndexRMW(Source.X, Callback.ISB)
  }

  /** The operand bytes an opcode is followed by. */
  function OperandBytes(op: OpType): nat {
    match op
    case AccumulatorOrImplied(_) | BRK(_) | RTI(_) | RTS(_) | PH(_, _) | PL(_, _) => 0
    case AbsoluteRead(_, _) | AbsoluteIndexRead(_, _, _) | JSR(_) | JmpAbsolute(_) | AbsoluteRMW(_, _)
       | AbsoluteWrite(_, _) | AbsoluteIndexRMW(_, _) | AbsoluteIndexWrite(_, _, _)
       | AbsoluteIndexCorruptingWrite(_) | JmpIndirect(_) => 2
    case _ => 1
  }

  // --- the pieces programs are made of

  const Zero := Source.Constant(0)
  const One := Source.Constant(1)
  const Latch := AddressSource.AddressLatch

  function FetchLo(): MicroOp { FetchOperandLo(NoOp) }
  function FetchHi(): MicroOp { FetchOperandHi(NoOp) }

  /** Reads the high operand byte while the index is added to the low one. */
  function FetchHiAddIndex(index: Source, cb: Callback): MicroOp {
    ReadAbsolute(AddressSource.PC, Zero, Target.HI, Source.LO, index, Target.LO, true, cb)
  }

  /** Reads the high pointer byte from the zero page while Y is added to the low one. */
  function PointerHiAddY(cb: Callback): MicroOp {
    ReadZeroPage(AddressSource.LO, One, Target.HI, Source.DataBus, Source.Y, Target.LO, false, cb)
  }

  function ReadTo(from: AddressSource, to: Target): MicroOp { MicroOp.Read(from, to, NoOp) }

  function Untouched(incPc: bool, cb: Callback): MicroOp {
    ReadZeroPage(AddressSource.Absent, Source.Absent, Target.Nowhere, Source.Absent, Source.Absent, Target.Nowhere, incPc, cb)
  }

  function IncStackPointer(): MicroOp {
    ReadZeroPage(AddressSource.Absent, Source.Absent, Target.Nowhere, Source.SP, One, Target.SP, false, NoOp)
  }

  function AddIndexToLo(index: Source): MicroOp {
    ReadZeroPage(AddressSource.Absent, Source.Absent, Target.Nowhere, Source.LO, index, Target.LO, false, NoOp)
  }

  function ReadPc(to: Target, incPc: bool, cb: Callback): MicroOp {
    ReadAbsolute(AddressSource.PC, Zero, to, Source.Absent, Source.Absent, Target.Nowhere, incPc, cb)
  }

  function JumpHi(from: AddressSource, offset: Source, low: Source, cb: Callback): MicroOp {
    ReadAbsolute(from, offset, Target.PCH, low, Zero, Target.PCL, false, cb)
  }

  /** The write of the value as it was read, which changes it, and the write of the changed value. */
  function WriteOld(to: Target, cb: Callback): MicroOp { MicroOp.Write(to, Source.DataBus, false, cb) }
  function WriteNew(to: Target, pre: bool): MicroOp { MicroOp.Write(to, Source.DataBus, pre, NoOp) }

  /** The two reads of an indexed indirect pointer, the index having been added in the data latch. */
  function PointerLo(): MicroOp { ReadTo(AddressSource.Temp, Target.LO) }
  function PointerHi(): MicroOp {
    ReadZeroPage(AddressSource.Temp, One, Target.HI, Source.Absent, Source.Absent, Target.Nowhere, false, NoOp)
  }

  function PointerHiAbsolute(): MicroOp {
    ReadAbsolute(AddressSource.Temp, One, Target.HI, Source.Absent, Source.Absent, Target.Nowhere, false, NoOp)
  }

  function AddXToPointer(): MicroOp {
    ReadZeroPage(AddressSource.LO, Zero, Target.Nowhere, Source.LO, Source.X, Target.DataBus, false, NoOp)
  }

  function PointerLoFrom(cb: Callback): MicroOp {
    ReadZeroPage(AddressSource.LO, Zero, Target.DataBus, Source.Absent, Source.Absent, Target.Nowhere, false, cb)
  }

  predicate Simple(op: OpType) {
    op.AccumulatorOrImplied? || op.ImmediateAddressing? || op.PH? || op.Relative?
  }

  predicate Reads(op: OpType) {
    op.AbsoluteRead? || op.ZeroPageRead? || op.ZeroPageIndexRead?
  }

  predicate IndexedReads(op: OpType) {
    op.AbsoluteIndexRead? || op.IndexedIndirectRead? || op.IndirectIndexedRead?
  }

  predicate Stores(op: OpType) {
    op.AbsoluteWrite? || op.ZeroPageWrite? || op.ZeroPageIndexWrite?
  }

  predicate IndexedStores(op: OpType) {
    op.AbsoluteIndexWrite? || op.IndexedIndirectWrite? || op.IndirectIndexedWrite?
  }

  predicate Modifies(op: OpType) {
    op.AbsoluteRMW? || op.ZeroPageRMW? || op.ZeroPageIndexRMW?
  }

  predicate IndexedModifies(op: OpType) {
    op.AbsoluteIndexRMW? || op.IndexedIndirectRMW? || op.IndirectIndexedRMW?
  }

  predicate Jumps(op: OpType) {
    op.JSR? || op.RTS? || op.JmpAbsolute? || op.JmpIndirect?
  }

  predicate Pulls(op: OpType) {
    op.BRK? || op.RTI? || op.PL?
  }

  predicate Corrupts(op: OpType) {
    op.IndirectIndexedWriteSHA? || op.AbsoluteIndexCorruptingWrite?
  }

  function SimpleProgram(op: OpType): seq<MicroOp>
    requires Simple(op)
  {
    match op
    case AccumulatorOrImplied(cb) => [DummyRead(cb)]
    case ImmediateAddressing(target, cb) => [ReadPc(target, true, cb)]
    case PH(src, cb) => [DummyRead(NoOp), StackPush(src, cb)]
    case Relative(cb) => [FetchOperandLo(cb)]
  }

  function ReadsProgram(op: OpType): seq<MicroOp>
    requires Reads(op)
  {
    match op
    case AbsoluteRead(target, cb) => [FetchLo(), FetchHi(), MicroOp.Read(Latch, target, cb)]
    case ZeroPageRead(target, cb) => [FetchLo(), MicroOp.Read(AddressSource.LO, target, cb)]
    case ZeroPageIndexRead(index, target, cb) =>
      [FetchLo(), DummyReadAdd(AddressSource.LO, index, Target.DataBus, NoOp), MicroOp.Read(AddressSource.Temp, target, cb)]
  }

  function IndexedReadsProgram(op: OpType): seq<MicroOp>
    requires IndexedReads(op)
  {
    match op
    case AbsoluteIndexRead(index, target, cb) =>
      [FetchLo(), FetchHiAddIndex(index, NoOp), ReadPageCrossAware(index, target, true, cb)]
    case IndexedIndirectRead(target, cb) =>
      [FetchLo(), DummyReadAdd(AddressSource.LO, Source.X, Target.DataBus, NoOp), PointerLo(), PointerHi(),
       MicroOp.Read(Latch, target, cb)]
    case IndirectIndexedRead(target, cb) =>
      [FetchLo(), ReadTo(AddressSource.LO, Target.DataBus), PointerHiAddY(NoOp),
       ReadPageCrossAware(Source.Y, target, true, cb)]
  }

  function StoresProgram(op: OpType): seq<MicroOp>
    requires Stores(op)
  {
    match op
    case AbsoluteWrite(src, cb) => [FetchLo(), FetchHi(), MicroOp.Write(Target.AddressLatch, src, true, cb)]
    case ZeroPageWrite(src, cb) => [FetchLo(), MicroOp.Write(LoWrite, src, true, cb)]
    case ZeroPageIndexWrite(src, index, cb) => [FetchLo(), AddIndexToLo(index), MicroOp.Write(LoWrite, src, true, cb)]
  }

  function IndexedStoresProgram(op: OpType): seq<MicroOp>
    requires IndexedStores(op)
  {
    match op
    case AbsoluteIndexWrite(src, index, cb) =>
      [FetchLo(), FetchHiAddIndex(index, NoOp), ReadPageCrossAware(index, Target.Nowhere, false, NoOp),
       MicroOp.Write(Target.AddressLatch, src, true, cb)]
    case IndexedIndirectWrite(src, cb) =>
      [FetchLo(), AddXToPointer(), PointerLo(), PointerHi(), MicroOp.Write(Target.AddressLatch, src, true, cb)]
    case IndirectIndexedWrite(src, cb) =>
      [FetchLo(), PointerLoFrom(cb), PointerHiAddY(NoOp), ReadPageCrossAware(Source.Y, Target.Nowhere, false, NoOp),
       MicroOp.Write(Target.AddressLatch, src, true, cb)]
  }

  function ModifiesProgram(op: OpType): seq<MicroOp>
    requires Modifies(op)
  {
    match op
    case AbsoluteRMW(target, cb) =>
      [FetchLo(), FetchHi(), ReadTo(Latch, target),
       WriteOld(Target.AddressLatch, cb), WriteNew(Target.AddressLatch, false)]
    case ZeroPageRMW(target, cb) =>
      [FetchLo(), ReadTo(AddressSource.LO, target),
       WriteOld(LoWrite, cb), WriteNew(LoWrite, true)]
    case ZeroPageIndexRMW(index, cb) =>
      [FetchLo(), AddIndexToLo(index), ReadTo(AddressSource.LO, Target.DataBus),
       WriteOld(LoWrite, cb), WriteNew(LoWrite, true)]
  }

  function IndexedModifiesProgram(op: OpType): seq<MicroOp>
    requires IndexedModifies(op)
  {
    match op
    case AbsoluteIndexRMW(index, cb) =>
      [FetchLo(), FetchHiAddIndex(index, NoOp), ReadPageCrossAware(index, Target.DataBus, false, NoOp),
       ReadTo(Latch, Target.DataBus),
       WriteOld(Target.AddressLatch, cb), WriteNew(Target.AddressLatch, true)]
    case IndexedIndirectRMW(cb) =>
      [FetchLo(), AddXToPointer(), PointerLo(), PointerHiAbsolute(), ReadTo(Latch, Target.DataBus),
       WriteOld(Target.AddressLatch, cb), WriteNew(Target.AddressLatch, true)]
    case IndirectIndexedRMW(cb) =>
      [FetchLo(), ReadTo(AddressSource.LO, Target.DataBus), PointerHiAddY(NoOp),
       ReadPageCrossAware(Source.Y, Target.DataBus, false, NoOp), ReadTo(Latch, Target.DataBus),
       WriteOld(Target.AddressLatch, cb), WriteNew(Target.AddressLatch, true)]
  }

  function JumpsProgram(op: OpType): seq<MicroOp>
    requires Jumps(op)
  {
    match op
    case JSR(cb) =>
      [FetchLo(), DummyRead(NoOp), StackPush(Source.PCH, NoOp), StackPush(Source.PCL, NoOp),
       JumpHi(AddressSource.PC, Zero, Source.LO, cb)]
    case RTS(cb) =>
      [DummyRead(NoOp), IncStackPointer(), StackPop(Target.PCL, NoOp), StackPeek(Target.PCH, NoOp), Untouched(true, cb)]
    case JmpAbsolute(cb) => [FetchLo(), JumpHi(AddressSource.PC, Zero, Source.LO, cb)]
    case JmpIndirect(cb) =>
      [FetchLo(), FetchHi(), ReadTo(Latch, Target.DataBus), JumpHi(Latch, One, Source.DataBus, cb)]
  }

  function PullsProgram(op: OpType): seq<MicroOp>
    requires Pulls(op)
  {
    match op
    case BRK(cb) =>
      [ReadPc(Target.Nowhere, true, COPY(AddressSource.Address(0xFFFE), IrqVecCandidate)),
       StackPush(Source.PCH, NoOp), StackPush(Source.PCL, NoOp), StackPush(Source.PBrk, LockIrqVec),
       MicroOp.Read(IrqVec, Target.PCL, Callback.SEI),
       ReadAbsolute(IrqVec, One, Target.PCH, Source.Absent, Source.Absent, Target.Nowhere, false, cb)]
    case RTI(cb) =>
      [DummyRead(NoOp), IncStackPointer(), StackPop(Target.P, NoOp), StackPop(Target.PCL, NoOp), StackPeek(Target.PCH, cb)]
    case PL(target, cb) => [DummyRead(NoOp), IncStackPointer(), StackPeek(target, cb)]
  }

  function CorruptsProgram(op: OpType): seq<MicroOp>
    requires Corrupts(op)
  {
    match op
    case IndirectIndexedWriteSHA =>
      [FetchLo(), PointerLoFrom(NoOp), PointerHiAddY(ShaRdyCheck), ReadPageCrossCorrupting(false),
       MicroOp.Write(Target.AddressLatch, Source.DataBus, false, NoOp)]
    case AbsoluteIndexCorruptingWrite(updateSp) =>
      [FetchLo(), FetchHiAddIndex(Source.Y, ShaRdyCheck), ReadPageCrossCorrupting(updateSp),
       MicroOp.Write(Target.AddressLatch, Source.DataBus, false, NoOp)]
  }

  /** The micro-operations an opcode schedules when it is fetched. */
  function Program(op: OpType): seq<MicroOp> {
    if Simple(op) then SimpleProgram(op)
    else if Reads(op) then ReadsProgram(op)
    else if IndexedReads(op) then IndexedReadsProgram(op)
    else if Stores(op) then StoresProgram(op)
    else if IndexedStores(op) then IndexedStoresProgram(op)
    else if Modifies(op) then ModifiesProgram(op)
    else if IndexedModifies(op) then IndexedModifiesProgram(op)
    else if Jumps(op) then JumpsProgram(op)
    else if Pulls(op) then PullsProgram(op)
    else CorruptsProgram(op)
  }

  /** The interrupt sequence through the vector at `vector`. */
  function InterruptProgram(vector: word): seq<MicroOp> {
    [ReadPc(Target.Nowhere, false, NoOp), ReadPc(Target.Nowhere, false, NoOp),
     StackPush(Source.PCH, NoOp), StackPush(Source.PCL, NoOp), StackPush(Source.PIrq, LockIrqVec),
     MicroOp.Read(AddressSource.Address(vector), Target.PCL, Callback.SEI),
     ReadAbsolute(AddressSource.Address(vector), One, Target.PCH, Source.Absent, Source.Absent, Target.Nowhere, false, ExitIrq)]
  }

  function ResetProgram(): seq<MicroOp> {
    [ReadPc(Target.Nowhere, false, NoOp), ReadPc(Target.Nowhere, false, NoOp),
     StackPush(Source.Absent, NoOp), StackPush(Source.Absent, NoOp), StackPush(Source.Absent, NoOp),
     MicroOp.Read(AddressSource.Address(0xFFFC), Target.PCL, Callback.SEI),
     MicroOp.Read(AddressSource.Address(0xFFFD), Target.PCH, ExitIrq)]
  }

  // --- what the table promises about its entries

  /** A callback that changes registers or nothing. */
  predicate PlainCallback(cb: Callback) {
    !cb.BRANCH? && !cb.COPY? && !cb.LockIrqVec? && !cb.ExitIrq? && !cb.ShaRdyCheck? && !cb.SHX? && !cb.SHY?
  }

  predicate IndexRegister(s: Source) {
    s.X? || s.Y?
  }

  predicate ReadTarget(t: Target) {
    t.A? || t.X? || t.Y? || t.DataBus? || t.Nowhere?
  }

  /** The callbacks of read-modify-write opcodes, which all work on the data latch. */
  predicate ModifyCallback(cb: Callback) {
    cb.ASL? || cb.LSR? || cb.ROL? || cb.ROR? || cb.INC? || cb.DEC?
    || cb.SLO? || cb.RLA? || cb.SRE? || cb.RRA? || cb.DCP? || cb.ISB?
  }

  /** A store of a register, or of A AND X through the data latch. */
  predicate StoreEntry(s: Source, cb: Callback) {
    if cb.SAX? then s.DataBus? else cb.NoOp? && (s.A? || s.X? || s.Y?)
  }

  /** A load of a register, or an operation on the data latch. */
  predicate ReadEntry(t: Target, cb: Callback) {
    ReadTarget(t) && PlainCallback(cb) && (t.DataBus? || cb.NoOp? || (t.Nowhere? && cb.JAM?))
  }

  predicate Unstable(op: OpType) {
    || op.IndirectIndexedWriteSHA? || op.AbsoluteIndexCorruptingWrite?
    || (op.AbsoluteIndexWrite? && (op.cb.SHX? || op.cb.SHY?))
  }

  /** The index register is not the one that is loaded. */
  predicate Independent(index: Source, target: Target) {
    IndexRegister(index) && ReadTarget(target) && !(index.X? && target.X?) && !(index.Y? && target.Y?)
  }

  predicate Entry(op: OpType) {
    match op
    case ImmediateAddressing(t, cb) => ReadEntry(t, cb)
    case AccumulatorOrImplied(cb) => PlainCallback(cb) && !cb.JAM?
    case Relative(cb) => cb.BRANCH?
    case JmpIndirect(cb) => cb.NoOp?
    case BRK(cb) => cb.NoOp?
    case RTI(cb) => cb.NoOp?
    case RTS(cb) => cb.NoOp?
    case JSR(cb) => cb.NoOp?
    case JmpAbsolute(cb) => cb.NoOp?
    case PH(s, cb) => (s.A? || s.PBrk?) && cb.NoOp?
    case PL(t, cb) => (t.A? || t.P?) && cb.NoOp?
    case AbsoluteRead(t, cb) => ReadEntry(t, cb) && !cb.JAM?
    case ZeroPageRead(t, cb) => ReadEntry(t, cb) && !cb.JAM?
    case IndirectIndexedRead(t, cb) => !t.Y? && ReadEntry(t, cb) && !cb.JAM?
    case IndexedIndirectRead(t, cb) => ReadEntry(t, cb) && !cb.JAM?
    case AbsoluteIndexRead(i, t, cb) => Independent(i, t) && ReadEntry(t, cb) && !cb.JAM?
    case ZeroPageIndexRead(i, t, cb) => IndexRegister(i) && ReadEntry(t, cb) && !cb.JAM?
    case AbsoluteRMW(t, cb) => t.DataBus? && ModifyCallback(cb)
    case ZeroPageRMW(t, cb) => t.DataBus? && ModifyCallback(cb)
    case AbsoluteIndexRMW(i, cb) => IndexRegister(i) && ModifyCallback(cb)
    case ZeroPageIndexRMW(i, cb) => IndexRegister(i) && ModifyCallback(cb)
    case IndirectIndexedRMW(cb) => ModifyCallback(cb)
    case IndexedIndirectRMW(cb) => ModifyCallback(cb)
    case AbsoluteWrite(s, cb) => StoreEntry(s, cb)
    case ZeroPageWrite(s, cb) => StoreEntry(s, cb)
    case IndexedIndirectWrite(s, cb) => StoreEntry(s, cb)
    case IndirectIndexedWrite(s, cb) => s.A? && cb.NoOp?
    case ZeroPageIndexWrite(s, i, cb) => IndexRegister(i) && StoreEntry(s, cb)
    case AbsoluteIndexWrite(s, i, cb) => IndexRegister(i) && (StoreEntry(s, cb) || (s.DataBus? && (cb.SHX? || cb.SHY?)))
    case IndirectIndexedWriteSHA => true
    case AbsoluteIndexCorruptingWrite(_) => true
  }

  lemma EveryOpcodeIsAnEntry(opcode: byte)
    ensures Entry(Decode(opcode))
  {
    TableEntry(opcode as int);
  }

  lemma TableEntry(n: nat)
    requires n < 256
    ensures Entry(Table(n))
  {
    hide Entry;
    var k := n % 16;
    match n / 16
    case 0 => Row0Entries(k);
    case 1 => Row1Entries(k);
    case 2 => Row2Entries(k);
    case 3 => Row3Entries(k);
    case 4 => Row4Entries(k);
    case 5 => Row5Entries(k);
    case 6 => Row6Entries(k);
    case 7 => Row7Entries(k);
    case 8 => Row8Entries(k);
    case 9 => Row9Entries(k);
    case 10 => RowAEntries(k);
    case 11 => RowBEntries(k);
    case 12 => RowCEntries(k);
    case 13 => RowDEntries(k);
    case 14 => RowEEntries(k);
    case _ => RowFEntries(k);
  }

  lemma Row0Entries(n: nat)
    ensures Entry(Row0(n))
  {
  }

  lemma Row1Entries(n: nat)
    ensures Entry(Row1(n))
  {
  }

  lemma Row2Entries(n: nat)
    ensures Entry(Row2(n))
  {
  }

  lemma Row3Entries(n: nat)
    ensures Entry(Row3(n))
  {
  }

  lemma Row4Entries(n: nat)
    ensures Entry(Row4(n))
  {
  }

  lemma Row5Entries(n: nat)
    ensures Entry(Row5(n))
  {
  }

  lemma Row6Entries(n: nat)
    ensures Entry(Row6(n))
  {
  }

  lemma Row7Entries(n: nat)
    ensures Entry(Row7(n))
  {
  }

  lemma Row8Entries(n: nat)
    ensures Entry(Row8(n))
  {
  }

  lemma Row9Entries(n: nat)
    ensures Entry(Row9(n))
  {
  }

  lemma RowAEntries(n: nat)
    ensures Entry(RowA(n))
  {
  }

  lemma RowBEntries(n: nat)
    ensures Entry(RowB(n))
  {
  }

  lemma RowCEntries(n: nat)
    ensures Entry(RowC(n))
  {
  }

  lemma RowDEntries(n: nat)
    ensures Entry(RowD(n))
  {
  }

  lemma RowEEntries(n: nat)
    ensures Entry(RowE(n))
  {
  }

  lemma RowFEntries(n: nat)
    ensures Entry(RowF(n))
  {
  }
}
