/** The vocabulary of the CPU: micro-operations, their operands, and the registers they work on. */
module CpuTypes {
  import opened Bits

  datatype Option<T> = None | Some(value: T)

  /** One access on the CPU bus, with the value that was read or written. */
  datatype Access = Loaded(addr: word, data: byte) | Stored(addr: word, data: byte)

  /** What is on the other end of the bus: any device whose answer to a read depends on all accesses before it. */
  type Device = (seq<Access>, word) -> byte

  datatype Target = A | X | Y | SP | PCL | PCH | LO | HI | DataBus | Nowhere | P | AddressLatch | LoWrite
                  | IrqVecCandidate | OamWrite

  datatype Source = PBrk | A | X | Y | SP | PCL | PCH | LO | HI | DataBus | Constant(data: byte) | Absent | PIrq

  datatype AddressSource = AddressLatch | Address(addr: word) | LO | HI | Temp | Absent | PC | IrqVec

  datatype Condition = CarrySet | CarryClear | ZeroSet | ZeroClear | NegativeSet | NegativeClear
                     | OverflowSet | OverflowClear

  datatype Callback = NoOp | ADC | ASL | LSR | ROL | ROR | CLC | CLD | CLI | CLV | DEX | DEY | INX | INY | SEI | SED
                    | SEC | TAX | TAY | TSX | TXA | TXS | TYA | AND | CMP | CPX | CPY | EOR | ORA | SBC | BIT | DEC
                    | INC | BRANCH(condition: Condition) | LAX | LXA | ALR | ANC | ANE | ARR | DCP | ISB | LAS | RLA
                    | RRA | SAX | SBX | SHX | SHY | SLO | SRE | JAM | COPY(from: AddressSource, to: Target) | LockIrqVec | ExitIrq
                    | ShaRdyCheck

  datatype MicroOp =
    | FetchOpcode
    | FetchOperandLo(cb: Callback)
    | FetchOperandHi(cb: Callback)
    | Read(from: AddressSource, to: Target, cb: Callback)
    | Write(to: Target, src: Source, pre: bool, cb: Callback)
    | StackPush(src: Source, cb: Callback)
    | StackPop(to: Target, cb: Callback)
    | StackPeek(to: Target, cb: Callback)
    | ReadPageCrossAware(index: Source, to: Target, schedule: bool, cb: Callback)
    | ReadPageCrossCorrupting(updateSp: bool)
    | DummyReadAdd(from: AddressSource, offset: Source, to: Target, cb: Callback)
    | DummyRead(cb: Callback)
    | ReadZeroPage(from: AddressSource, offset: Source, to: Target, addTo: Source, add: Source, save: Target,
                   incPc: bool, cb: Callback)
    | ReadAbsolute(from: AddressSource, offset: Source, to: Target, addTo: Source, add: Source, save: Target,
                   incPc: bool, cb: Callback)
    | BranchIncrement(src: Source)
    | FixHiBranch(pc: word)

  datatype OpType =
    | ImmediateAddressing(target: Target, cb: Callback)
    | AccumulatorOrImplied(cb: Callback)
    | JmpIndirect(cb: Callback)
    | Relative(cb: Callback)
    | BRK(cb: Callback)
    | RTI(cb: Callback)
    | RTS(cb: Callback)
    | PH(src: Source, cb: Callback)
    | PL(target: Target, cb: Callback)
    | JSR(cb: Callback)
    | JmpAbsolute(cb: Callback)
    | AbsoluteRead(target: Target, cb: Callback)
    | AbsoluteRMW(target: Target, cb: Callback)
    | AbsoluteWrite(src: Source, cb: Callback)
    | AbsoluteIndexRead(index: Source, target: Target, cb: Callback)
    | AbsoluteIndexRMW(index: Source, cb: Callback)
    | AbsoluteIndexWrite(src: Source, index: Source, cb: Callback)
    | AbsoluteIndexCorruptingWrite(updateSp: bool)
    | ZeroPageRead(target: Target, cb: Callback)
    | ZeroPageRMW(target: Target, cb: Callback)
    | ZeroPageWrite(src: Source, cb: Callback)
    | ZeroPageIndexRead(index: Source, target: Target, cb: Callback)
    | ZeroPageIndexRMW(index: Source, cb: Callback)
    | ZeroPageIndexWrite(src: Source, index: Source, cb: Callback)
    | IndirectIndexedRead(target: Target, cb: Callback)
    | IndirectIndexedRMW(cb: Callback)
    | IndirectIndexedWrite(src: Source, cb: Callback)
    | IndirectIndexedWriteSHA
    | IndexedIndirectRead(target: Target, cb: Callback)
    | IndexedIndirectRMW(cb: Callback)
    | IndexedIndirectWrite(src: Source, cb: Callback)

  /** How the unstable store opcodes corrupt their address and value. */
  datatype Corruption = Mode1 | Mode2 | Mode3 | Mode4
  datatype CorruptionConfig = CorruptionConfig(mode: Corruption, magic: byte, mode3AddressMagic: byte)
  datatype Config = Config(sha: CorruptionConfig, tas: CorruptionConfig)

  /**
   Everything a micro-operation reads and changes: the registers, the operand latches `lo`, `hi` and
   `db`, the DMA request raised by a store to $4014, and the accesses made so far.
   */
  datatype Core = Core(
    pc: word, sp: byte, a: byte, x: byte, y: byte, p: byte,
    lo: byte, hi: byte, db: byte, op: OpType,
    rdy: bool, page: byte, halted: bool, shaRdyLow: bool, log: seq<Access>)
}
