/**
 The 6502 instructions as single steps: operand address, bus accesses, registers and cycle count of
 each addressing mode, without any micro-operation.
 */
module InstructionSet {
  import opened Bits
  import opened CpuTypes
  import opened CpuAlu
  import opened CpuExec
  import opened Opcodes

  datatype Mode = ZpMode | ZpIndexedMode(index: Source) | AbsMode | AbsIndexedMode(index: Source)
                | IndexedIndirectMode | IndirectIndexedMode

  /** Where the operand is, the address read before the index carry is fixed, and the accesses that found it. */
  datatype Operand = Operand(addr: word, unfixed: word, log: seq<Access>)

  /** The result of an instruction.  The operand latches of `core` are not part of it. */
  datatype Outcome = Outcome(core: Core, cycles: nat)

  function Look(log: seq<Access>, addr: word, dev: Device): seq<Access> {
    log + [Loaded(addr, dev(log, addr))]
  }

  function Answer(log: seq<Access>, addr: word, dev: Device): byte {
    dev(log, addr)
  }

  function IndexValue(c: Core, index: Source): byte {
    if index.X? then c.x else c.y
  }

  /** An indexed address: the sum modulo 65536, and the address with the carry into the high byte missing. */
  function Indexed(base: word, index: byte, log: seq<Access>): Operand {
    Operand(base + (index as word), AddLow(base, index), log)
  }

  predicate Crossed(o: Operand) {
    o.addr != o.unfixed
  }

  predicate IsIndexed(mode: Mode) {
    mode.AbsIndexedMode? || mode.IndirectIndexedMode?
  }

  /** The operand of a memory instruction; reading modes with a zero page index read the unindexed address first. */
  function Resolve(c: Core, mode: Mode, reading: bool, dev: Device): Operand {
    var l1 := Look(c.log, c.pc, dev);
    var p1 := Next(c.pc);
    var b := Answer(l1, p1, dev);
    var l2 := Look(l1, p1, dev);
    match mode
    case ZpMode => Operand(ZeroPage(b), ZeroPage(b), l2)
    case ZpIndexedMode(index) =>
      var a := ZeroPage(Plus8(b, IndexValue(c, index)));
      Operand(a, a, if reading then Look(l2, ZeroPage(b), dev) else l2)
    case AbsMode =>
      var a := Pair(Answer(l2, Next(p1), dev), b);
      Operand(a, a, Look(l2, Next(p1), dev))
    case AbsIndexedMode(index) =>
      Indexed(Pair(Answer(l2, Next(p1), dev), b), IndexValue(c, index), Look(l2, Next(p1), dev))
    case IndexedIndirectMode =>
      var l3 := Look(l2, ZeroPage(b), dev);
      var z := Plus8(b, c.x);
      var l4 := Look(l3, ZeroPage(z), dev);
      var a := Pair(Answer(l4, ZeroPage(Plus8(z, 1)), dev), Answer(l3, ZeroPage(z), dev));
      Operand(a, a, Look(l4, ZeroPage(Plus8(z, 1)), dev))
    case IndirectIndexedMode =>
      var l3 := Look(l2, ZeroPage(b), dev);
      Indexed(Pair(Answer(l3, ZeroPage(Plus8(b, 1)), dev), Answer(l2, ZeroPage(b), dev)), c.y,
              Look(l3, ZeroPage(Plus8(b, 1)), dev))
  }

  /** The cycles of a mode before its operand is accessed. */
  function ResolveCycles(mode: Mode): nat {
    match mode
    case ZpMode => 2
    case ZpIndexedMode(_) => 3
    case AbsMode => 3
    case AbsIndexedMode(_) => 3
    case IndexedIndirectMode => 5
    case IndirectIndexedMode => 4
  }

  /** The program counter behind the instruction. */
  function Behind(c: Core, op: OpType): word {
    Plus(c.pc, 1 + OperandBytes(op))
  }

  function Begun(c: Core, op: OpType, log: seq<Access>): Core {
    c.(pc := Behind(c, op), op := op, log := log)
  }

  /** A read: an indexed one reads again at the fixed address exactly when the index carried. */
  function ReadInstruction(c: Core, op: OpType, mode: Mode, target: Target, cb: Callback, dev: Device): Outcome {
    var o := Resolve(c, mode, true, dev);
    var l := if IsIndexed(mode) && Crossed(o) then Look(o.log, o.unfixed, dev) else o.log;
    var v := Answer(l, o.addr, dev);
    Outcome(Called(WriteRegister(Begun(c, op, Look(l, o.addr, dev)), target, v), cb).core,
            ResolveCycles(mode) + 1 + if IsIndexed(mode) && Crossed(o) then 1 else 0)
  }

  function StoredByte(c: Core, src: Source, cb: Callback): byte {
    if cb.SAX? then And(c.a, c.x) else match src case X => c.x case Y => c.y case _ => c.a
  }

  /** A write: an indexed one always reads at the unfixed address first. */
  function WriteInstruction(c: Core, op: OpType, mode: Mode, src: Source, cb: Callback, dev: Device): Outcome {
    var o := Resolve(c, mode, false, dev);
    var l := if IsIndexed(mode) then Look(o.log, o.unfixed, dev) else o.log;
    Outcome(Store(Begun(c, op, l), o.addr, StoredByte(c, src, cb)),
            ResolveCycles(mode) + 1 + if IsIndexed(mode) then 1 else 0)
  }

  /** A read-modify-write before its last write: the old byte is written back, the new one in the data latch. */
  function WrittenBack(c: Core, op: OpType, mode: Mode, cb: Callback, dev: Device): Core {
    var o := Resolve(c, mode, false, dev);
    var l := if IsIndexed(mode) then Look(o.log, o.unfixed, dev) else o.log;
    var v := Answer(l, o.addr, dev);
    Alu(Store(Begun(c, op, Look(l, o.addr, dev)).(db := v), o.addr, v), cb)
  }

  /** A read-modify-write: it writes the byte back as it was read before it writes the changed one. */
  function ModifyInstruction(c: Core, op: OpType, mode: Mode, cb: Callback, dev: Device): Outcome {
    var m := WrittenBack(c, op, mode, cb, dev);
    Outcome(Store(m, Resolve(c, mode, false, dev).addr, m.db), ResolveCycles(mode) + 3 + if IsIndexed(mode) then 1 else 0)
  }

  function ImpliedInstruction(c: Core, op: OpType, cb: Callback, dev: Device): Outcome {
    Outcome(Called(Begun(c, op, Look(Look(c.log, c.pc, dev), Next(c.pc), dev)), cb).core, 2)
  }

  function ImmediateInstruction(c: Core, op: OpType, target: Target, cb: Callback, dev: Device): Outcome {
    var l := Look(c.log, c.pc, dev);
    Outcome(Called(WriteRegister(Begun(c, op, Look(l, Next(c.pc), dev)), target, Answer(l, Next(c.pc), dev)), cb).core, 2)
  }

  // --- the stack

  function Pushed(c: Core, v: byte): Core {
    Store(c, StackAddress(c.sp), v).(sp := Dec(c.sp))
  }

  /** The read of the byte behind the opcode that single byte instructions throw away. */
  function Peeked(c: Core, op: OpType, dev: Device): Core {
    c.(pc := Next(c.pc), op := op, log := Look(Look(c.log, c.pc, dev), Next(c.pc), dev))
  }

  /** `c` after a pull, and the byte that was pulled. */
  function Pulled(c: Core, dev: Device): Core {
    c.(sp := Inc(c.sp), log := Look(c.log, StackAddress(Inc(c.sp)), dev))
  }

  function PulledByte(c: Core, dev: Device): byte {
    Answer(c.log, StackAddress(Inc(c.sp)), dev)
  }

  function PushInstruction(c: Core, op: OpType, src: Source, dev: Device): Outcome {
    Outcome(Pushed(Peeked(c, op, dev), if src.A? then c.a else StatusBrk(c.p)), 3)
  }

  function PullInstruction(c: Core, op: OpType, target: Target, dev: Device): Outcome {
    var k := Peeked(c, op, dev);
    Outcome(WriteRegister(Pulled(k, dev), target, PulledByte(k, dev)), 4)
  }

  // --- jumps

  /** Calls push the address of the last byte of the instruction, and read that byte afterwards. */
  function CallInstruction(c: Core, op: OpType, dev: Device): Outcome {
    var k := Peeked(c, op, dev);
    var last := Next(k.pc);
    var d := Pushed(Pushed(k.(log := Look(k.log, last, dev)), High(last)), Low(last));
    Outcome(d.(pc := Pair(Answer(d.log, last, dev), Answer(Look(c.log, c.pc, dev), k.pc, dev)), log := Look(d.log, last, dev)), 6)
  }

  function ReturnInstruction(c: Core, op: OpType, dev: Device): Outcome {
    var k := Peeked(c, op, dev);
    var d := Pulled(k, dev);
    Outcome(Pulled(d, dev).(pc := Next(Pair(PulledByte(d, dev), PulledByte(k, dev)))), 6)
  }

  function ReturnFromInterrupt(c: Core, op: OpType, dev: Device): Outcome {
    var k := Peeked(c, op, dev);
    var d := Pulled(k, dev);
    var e := Pulled(d, dev);
    Outcome(Pulled(e, dev).(p := StatusPulled(PulledByte(k, dev)), pc := Pair(PulledByte(e, dev), PulledByte(d, dev))), 6)
  }

  function JumpInstruction(c: Core, op: OpType, dev: Device): Outcome {
    var k := Peeked(c, op, dev);
    var lo := Answer(Look(c.log, c.pc, dev), k.pc, dev);
    Outcome(k.(pc := Pair(Answer(k.log, Next(k.pc), dev), lo), log := Look(k.log, Next(k.pc), dev)), 3)
  }

  /** The high byte of the target is fetched from the same page as the low byte. */
  function JumpIndirectInstruction(c: Core, op: OpType, dev: Device): Outcome {
    var j := JumpInstruction(c, op, dev).core;
    var k := Look(j.log, j.pc, dev);
    Outcome(j.(pc := Pair(Answer(k, AddLow(j.pc, 1), dev), Answer(j.log, j.pc, dev)),
               log := Look(k, AddLow(j.pc, 1), dev)), 5)
  }

  /** A branch takes two cycles, three when it is taken, and four when the target lies in another page. */
  function BranchInstruction(c: Core, op: OpType, condition: Condition, dev: Device): Outcome {
    var k := Peeked(c, op, dev);
    var behind := Next(k.pc);
    var target := BranchTarget(behind, Answer(Look(c.log, c.pc, dev), k.pc, dev));
    var l := Look(k.log, behind, dev);
    if !Holds(c.p, condition) then Outcome(k.(pc := behind), 2)
    else if High(target) == High(behind) then Outcome(k.(pc := target, log := l), 3)
    else Outcome(k.(pc := target, log := Look(l, WithLow(behind, Low(target)), dev)), 4)
  }

  // --- interrupts

  /** Pushes the program counter and `status`, and goes on at the address stored at `vector`. */
  function Vectored(c: Core, status: byte, vector: word, dev: Device): Core {
    var s := Pushed(Pushed(Pushed(c, High(c.pc)), Low(c.pc)), status);
    var l := Look(s.log, vector, dev);
    s.(pc := Pair(Answer(l, AddLow(vector, 1), dev), Answer(s.log, vector, dev)), p := WithFlag(s.p, IRQ_DISABLE, true),
       log := Look(l, AddLow(vector, 1), dev))
  }

  /** An interrupt: two reads that are thrown away, then the jump through the vector. */
  function InterruptEntry(c: Core, vector: word, dev: Device): Outcome {
    Outcome(Vectored(c.(log := Look(Look(c.log, c.pc, dev), c.pc, dev)), StatusIrq(c.p), vector, dev), 7)
  }

  /** BRK returns behind the byte that follows it. */
  function BreakInstruction(c: Core, op: OpType, vector: word, dev: Device): Outcome {
    var k := Peeked(c, op, dev);
    Outcome(Vectored(k.(pc := Next(k.pc)), StatusBrk(c.p), vector, dev), 7)
  }

  // --- all instructions

  /** What an opcode other than BRK and the unstable stores does. */
  function Instruction(c: Core, op: OpType, dev: Device): Outcome {
    match op
    case ImmediateAddressing(target, cb) => ImmediateInstruction(c, op, target, cb, dev)
    case AccumulatorOrImplied(cb) => ImpliedInstruction(c, op, cb, dev)
    case JmpIndirect(_) => JumpIndirectInstruction(c, op, dev)
    case Relative(cb) => BranchInstruction(c, op, if cb.BRANCH? then cb.condition else CarrySet, dev)
    case RTI(_) => ReturnFromInterrupt(c, op, dev)
    case RTS(_) => ReturnInstruction(c, op, dev)
    case PH(src, _) => PushInstruction(c, op, src, dev)
    case PL(target, _) => PullInstruction(c, op, target, dev)
    case JSR(_) => CallInstruction(c, op, dev)
    case JmpAbsolute(_) => JumpInstruction(c, op, dev)
    case AbsoluteRead(target, cb) => ReadInstruction(c, op, AbsMode, target, cb, dev)
    case AbsoluteRMW(_, cb) => ModifyInstruction(c, op, AbsMode, cb, dev)
    case AbsoluteWrite(src, cb) => WriteInstruction(c, op, AbsMode, src, cb, dev)
    case AbsoluteIndexRead(index, target, cb) => ReadInstruction(c, op, AbsIndexedMode(index), target, cb, dev)
    case AbsoluteIndexRMW(index, cb) => ModifyInstruction(c, op, AbsIndexedMode(index), cb, dev)
    case AbsoluteIndexWrite(src, index, cb) => WriteInstruction(c, op, AbsIndexedMode(index), src, cb, dev)
    case ZeroPageRead(target, cb) => ReadInstruction(c, op, ZpMode, target, cb, dev)
    case ZeroPageRMW(_, cb) => ModifyInstruction(c, op, ZpMode, cb, dev)
    case ZeroPageWrite(src, cb) => WriteInstruction(c, op, ZpMode, src, cb, dev)
    case ZeroPageIndexRead(index, target, cb) => ReadInstruction(c, op, ZpIndexedMode(index), target, cb, dev)
    case ZeroPageIndexRMW(index, cb) => ModifyInstruction(c, op, ZpIndexedMode(index), cb, dev)
    case ZeroPageIndexWrite(src, index, cb) => WriteInstruction(c, op, ZpIndexedMode(index), src, cb, dev)
    case IndirectIndexedRead(target, cb) => ReadInstruction(c, op, IndirectIndexedMode, target, cb, dev)
    case IndirectIndexedRMW(cb) => ModifyInstruction(c, op, IndirectIndexedMode, cb, dev)
    case IndirectIndexedWrite(src, cb) => WriteInstruction(c, op, IndirectIndexedMode, src, cb, dev)
    case IndexedIndirectRead(target, cb) => ReadInstruction(c, op, IndexedIndirectMode, target, cb, dev)
    case IndexedIndirectRMW(cb) => ModifyInstruction(c, op, IndexedIndirectMode, cb, dev)
    case IndexedIndirectWrite(src, cb) => WriteInstruction(c, op, IndexedIndirectMode, src, cb, dev)
    case BRK(_) | AbsoluteIndexCorruptingWrite(_) | IndirectIndexedWriteSHA => Outcome(c, 0)
  }

  // --- the carry of an indexed address

  lemma CarryOut(lo: byte, index: byte)
    ensures var s := (lo as word) + (index as word);
      && s & 0xFE00 == 0 && Low(s) == Plus8(lo, index)
      && (s & 0x100 != 0 <==> Borrows(Plus8(lo, index), index))
  {
  }

  lemma AddHalves(hi: byte, lo: byte, index: byte)
    ensures Pair(hi, lo) + (index as word) == ((hi as word) << 8) + ((lo as word) + (index as word))
  {
  }

  lemma PairOfSum(hi: byte, s: word)
    requires s & 0xFE00 == 0
    ensures ((hi as word) << 8) + s == Pair(hi + (if s & 0x100 != 0 then 1 else 0), Low(s))
  {
  }

  lemma PairDistinct(hi: byte, lo: byte, v: byte)
    ensures Pair(hi + 1, v) != Pair(hi, v)
    ensures AddLow(Pair(hi, lo), v) == Pair(hi, Plus8(lo, v))
  {
  }

  /** Adding an index carries into the high byte exactly when the low byte comes out below the index. */
  lemma IndexCarry(hi: byte, lo: byte, index: byte, log: seq<Access>)
    ensures var o := Indexed(Pair(hi, lo), index, log);
      && o.unfixed == Pair(hi, Plus8(lo, index))
      && (Crossed(o) <==> Borrows(Plus8(lo, index), index))
      && o.addr == if Crossed(o) then Pair(hi + 1, Plus8(lo, index)) else Pair(hi, Plus8(lo, index))
  {
    var s := (lo as word) + (index as word);
    CarryOut(lo, index);
    AddHalves(hi, lo, index);
    PairOfSum(hi, s);
    PairDistinct(hi, Plus8(lo, index), Plus8(lo, index));
    PairDistinct(hi, lo, index);
    hide Pair, Plus8, Borrows, AddLow, Low;
  }
}
