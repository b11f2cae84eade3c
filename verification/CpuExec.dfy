/** What one micro-operation does, and the program of micro-operations each opcode schedules. */
module CpuExec {
  import opened Bits
  import opened CpuTypes
  import opened CpuAlu
  import opened Opcodes

  const DMA_ADDRESS: word := 0x4014
  const OAM_ADDRESS: word := 0x2004
  const STACK: word := 0x0100

  /** The registers after a micro-operation, and what it scheduled behind the pending ones. */
  datatype Effect = Effect(core: Core, push: seq<MicroOp>)

  // --- words

  function Next(pc: word): word { pc + 1 }
  function WithLow(w: word, v: byte): word { (w & 0xFF00) | (v as word) }
  function WithHigh(w: word, v: byte): word { (w & 0x00FF) | ((v as word) << 8) }
  function ZeroPage(b: byte): word { b as word }
  function StackAddress(sp: byte): word { STACK + (sp as word) }
  /** Only the low byte moves, so a page boundary is never crossed. */
  function AddLow(w: word, b: byte): word { WithLow(w, Low(w) + b) }
  /** The sign-extended branch target. */
  function BranchTarget(pc: word, offset: byte): word {
    if offset & 0x80 != 0 then pc + (0xFF00 | (offset as word)) else pc + (offset as word)
  }

  function Plus8(a: byte, b: byte): byte { a + b }
  predicate Borrows(lo: byte, index: byte) { lo < index }

  // --- the bus

  function LoadValue(c: Core, addr: word, dev: Device): byte { dev(c.log, addr) }
  function Load(c: Core, addr: word, dev: Device): Core { c.(log := c.log + [Loaded(addr, LoadValue(c, addr, dev))]) }

  /** A store to $4014 asks for a DMA from the page that was written. */
  function Store(c: Core, addr: word, v: byte): Core {
    var s := c.(log := c.log + [Stored(addr, v)]);
    if addr == DMA_ADDRESS then s.(rdy := true, page := v) else s
  }

  // --- operands

  function AddressOf(c: Core, from: AddressSource, vec: word): Option<word> {
    match from
    case AddressLatch => Some(Pair(c.hi, c.lo))
    case Address(a) => Some(a)
    case LO => Some(ZeroPage(c.lo))
    case HI => Some(ZeroPage(c.hi))
    case Temp => Some(ZeroPage(c.db))
    case PC => Some(c.pc)
    case IrqVec => Some(vec)
    case Absent => None
  }

  function ValueOf(c: Core, src: Source): Option<byte> {
    match src
    case A => Some(c.a)
    case X => Some(c.x)
    case Y => Some(c.y)
    case SP => Some(c.sp)
    case PCL => Some(Low(c.pc))
    case PCH => Some(High(c.pc))
    case LO => Some(c.lo)
    case HI => Some(c.hi)
    case DataBus => Some(c.db)
    case Constant(d) => Some(d)
    case Absent => None
    case PBrk => Some(StatusBrk(c.p))
    case PIrq => Some(StatusIrq(c.p))
  }

  function StatusBrk(p: byte): byte { p | 0x30 }
  function StatusIrq(p: byte): byte { p | 0x20 }
  function StatusPulled(v: byte): byte { v & 0xCF }

  predicate BusTarget(to: Target) {
    to.AddressLatch? || to.LoWrite? || to.OamWrite?
  }

  function TargetAddress(c: Core, to: Target): word {
    if to.AddressLatch? then Pair(c.hi, c.lo) else if to.LoWrite? then ZeroPage(c.lo) else OAM_ADDRESS
  }

  predicate FlaggedTarget(to: Target) {
    to.A? || to.X? || to.Y?
  }

  /** The status after a register is written. */
  function TargetStatus(p: byte, to: Target, v: byte): byte {
    if FlaggedTarget(to) then WithNZ(p, v) else if to.P? then StatusPulled(v) else p
  }

  function TargetPc(pc: word, to: Target, v: byte): word {
    if to.PCL? then WithLow(pc, v) else if to.PCH? then WithHigh(pc, v) else pc
  }

  function WriteRegister(c: Core, to: Target, v: byte): Core {
    c.(a := if to.A? then v else c.a,
       x := if to.X? then v else c.x,
       y := if to.Y? then v else c.y,
       sp := if to.SP? then v else c.sp,
       p := TargetStatus(c.p, to, v),
       pc := TargetPc(c.pc, to, v),
       lo := if to.LO? then v else c.lo,
       hi := if to.HI? then v else c.hi,
       db := if to.DataBus? then v else c.db)
  }

  function WriteTarget(c: Core, to: Target, v: byte): Core {
    if BusTarget(to) then Store(c, TargetAddress(c, to), v) else WriteRegister(c, to, v)
  }

  /** Running a callback may schedule the first cycle of a taken branch. */
  function Called(c: Core, cb: Callback): Effect {
    if cb.BRANCH? then Effect(c, if Holds(c.p, cb.condition) then [BranchIncrement(Source.LO)] else [])
    else Effect(if Touches(cb) then Alu(c, cb) else c, [])
  }

  /** Interrupt callbacks touch no register. */
  predicate Touches(cb: Callback) {
    !cb.NoOp? && !cb.LockIrqVec? && !cb.ExitIrq? && !cb.COPY?
  }

  // --- the executors

  function LoadTo(c: Core, addr: word, to: Target, dev: Device): Core {
    WriteTarget(Load(c, addr, dev), to, LoadValue(c, addr, dev))
  }

  function AddTo(c: Core, addTo: Source, add: Source, save: Target): Core {
    match (ValueOf(c, addTo), ValueOf(c, add))
    case (Some(a), Some(b)) => WriteTarget(c, save, Plus8(a, b))
    case _ => c
  }

  function ExecFetchOpcode(c: Core, dev: Device): Effect {
    var op := Decode(LoadValue(c, c.pc, dev));
    Effect(Load(c, c.pc, dev).(pc := Next(c.pc), op := op), Program(op))
  }

  function ExecFetchLo(c: Core, cb: Callback, dev: Device): Effect {
    Called(Load(c, c.pc, dev).(lo := LoadValue(c, c.pc, dev), pc := Next(c.pc)), cb)
  }

  function ExecFetchHi(c: Core, cb: Callback, dev: Device): Effect {
    Called(Load(c, c.pc, dev).(hi := LoadValue(c, c.pc, dev), pc := Next(c.pc)), cb)
  }

  function ExecRead(c: Core, from: AddressSource, to: Target, cb: Callback, vec: word, dev: Device): Effect {
    match AddressOf(c, from, vec)
    case Some(a) => Called(LoadTo(c, a, to, dev), cb)
    case None => Called(c, cb)
  }

  function WriteSource(c: Core, to: Target, src: Source): Core {
    match ValueOf(c, src)
    case Some(v) => WriteTarget(c, to, v)
    case None => c
  }

  /** The callback runs before the write or after it. */
  function ExecWrite(c: Core, to: Target, src: Source, pre: bool, cb: Callback): Effect {
    if pre then
      var e := Called(c, cb);
      Effect(WriteSource(e.core, to, src), e.push)
    else Called(WriteSource(c, to, src), cb)
  }

  function ExecPush(c: Core, src: Source, cb: Callback): Effect {
    var s := match ValueOf(c, src)
             case Some(v) => Store(c, StackAddress(c.sp), v)
             case None => c;
    Called(s.(sp := s.sp - 1), cb)
  }

  function ExecPop(c: Core, to: Target, cb: Callback, dev: Device): Effect {
    var a := StackAddress(c.sp);
    var l := Load(c, a, dev);
    Called(WriteTarget(l.(sp := l.sp + 1), to, LoadValue(c, a, dev)), cb)
  }

  function ExecPeek(c: Core, to: Target, cb: Callback, dev: Device): Effect {
    Called(LoadTo(c, StackAddress(c.sp), to, dev), cb)
  }

  /** Reads at the unfixed address; if adding the index carried, fixes the high byte and may read again. */
  function ExecPageCross(c: Core, index: Source, to: Target, schedule: bool, cb: Callback, dev: Device): Effect {
    var l := LoadTo(c, Pair(c.hi, c.lo), to, dev);
    match ValueOf(l, index)
    case Some(i) =>
      if Borrows(l.lo, i) then
        Effect(l.(hi := l.hi + 1), if schedule then [MicroOp.Read(AddressSource.AddressLatch, to, cb)] else [])
      else Called(l, cb)
    case None => Called(l, cb)
  }

  function CorruptValue(c: Core, cfg: CorruptionConfig): byte {
    if cfg.mode.Mode4? then c.a else c.a & (c.x | cfg.magic)
  }

  function CorruptHigh(c: Core, cfg: CorruptionConfig, carried: bool): byte {
    var h := if carried then c.hi + 1 else c.hi;
    match cfg.mode
    case Mode1 => c.a & c.x & h
    case Mode2 => c.x & h
    case Mode3 => (c.x | cfg.mode3AddressMagic) & c.hi
    case Mode4 => (c.a | c.x) & h
  }

  function Corrupted(c: Core, updateSp: bool, cfg: Config): Core {
    var k := if updateSp then cfg.tas else cfg.sha;
    var carried := Borrows(c.lo, c.y);
    var v := CorruptValue(c, k);
    c.(db := if c.shaRdyLow then v else And(v, Inc(c.hi)),
       shaRdyLow := false,
       sp := if updateSp then And(c.a, c.x) else c.sp,
       hi := if carried then CorruptHigh(c, k, carried) else c.hi)
  }

  function ExecCorrupting(c: Core, updateSp: bool, cfg: Config, dev: Device): Effect {
    Effect(Corrupted(Load(c, Pair(c.hi, c.lo), dev), updateSp, cfg), [])
  }

  function ExecDummyAdd(c: Core, from: AddressSource, offset: Source, to: Target, cb: Callback, vec: word, dev: Device): Effect {
    match AddressOf(c, from, vec)
    case Some(a) =>
      var l := Load(c, a, dev);
      (match ValueOf(l, offset)
       case Some(v) => Called(WriteTarget(l, to, Plus8(Low(a), v)), cb)
       case None => Called(l, cb))
    case None => Called(c, cb)
  }

  function ExecDummy(c: Core, cb: Callback, dev: Device): Effect {
    Called(Load(c, c.pc, dev), cb)
  }

  function Stepped(c: Core, incPc: bool): Core {
    if incPc then c.(pc := Next(c.pc)) else c
  }

  function ExecZeroPage(c: Core, from: AddressSource, offset: Source, to: Target, addTo: Source, add: Source,
                        save: Target, incPc: bool, cb: Callback, vec: word, dev: Device): Effect {
    var l := match (AddressOf(c, from, vec), ValueOf(c, offset))
             case (Some(a), Some(o)) => LoadTo(c, ZeroPage(Plus8(Low(a), o)), to, dev)
             case _ => c;
    Called(Stepped(AddTo(l, addTo, add, save), incPc), cb)
  }

  function ExecAbsolute(c: Core, from: AddressSource, offset: Source, to: Target, addTo: Source, add: Source,
                        save: Target, incPc: bool, cb: Callback, vec: word, dev: Device): Effect {
    var l := match (AddressOf(c, from, vec), ValueOf(c, offset))
             case (Some(a), Some(o)) => LoadTo(c, AddLow(a, o), to, dev)
             case _ => c;
    Called(Stepped(AddTo(l, addTo, add, save), incPc), cb)
  }

  /** The low byte of the target is in place after one cycle; a changed high byte takes another. */
  function ExecBranch(c: Core, src: Source, dev: Device): Effect {
    var l := Load(c, c.pc, dev);
    match ValueOf(l, src)
    case Some(o) =>
      var t := BranchTarget(c.pc, o);
      Effect(l.(pc := WithLow(l.pc, Low(t))), if High(c.pc) != High(t) then [FixHiBranch(t)] else [])
    case None => Effect(l, [])
  }

  function ExecFixHi(c: Core, pc: word, dev: Device): Effect {
    Effect(Load(c, c.pc, dev).(pc := pc), [])
  }

  /** One micro-operation; `vec` is the locked interrupt vector. */
  function Exec(c: Core, op: MicroOp, vec: word, cfg: Config, dev: Device): Effect {
    match op
    case FetchOpcode => ExecFetchOpcode(c, dev)
    case FetchOperandLo(cb) => ExecFetchLo(c, cb, dev)
    case FetchOperandHi(cb) => ExecFetchHi(c, cb, dev)
    case Read(from, to, cb) => ExecRead(c, from, to, cb, vec, dev)
    case Write(to, src, pre, cb) => ExecWrite(c, to, src, pre, cb)
    case StackPush(src, cb) => ExecPush(c, src, cb)
    case StackPop(to, cb) => ExecPop(c, to, cb, dev)
    case StackPeek(to, cb) => ExecPeek(c, to, cb, dev)
    case ReadPageCrossAware(index, to, schedule, cb) => ExecPageCross(c, index, to, schedule, cb, dev)
    case ReadPageCrossCorrupting(updateSp) => ExecCorrupting(c, updateSp, cfg, dev)
    case DummyReadAdd(from, offset, to, cb) => ExecDummyAdd(c, from, offset, to, cb, vec, dev)
    case DummyRead(cb) => ExecDummy(c, cb, dev)
    case ReadZeroPage(from, offset, to, addTo, add, save, incPc, cb) =>
      ExecZeroPage(c, from, offset, to, addTo, add, save, incPc, cb, vec, dev)
    case ReadAbsolute(from, offset, to, addTo, add, save, incPc, cb) =>
      ExecAbsolute(c, from, offset, to, addTo, add, save, incPc, cb, vec, dev)
    case BranchIncrement(src) => ExecBranch(c, src, dev)
    case FixHiBranch(pc) => ExecFixHi(c, pc, dev)
  }
}
