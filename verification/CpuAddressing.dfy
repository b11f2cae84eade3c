/** The micro-operations that find the operand of a memory instruction find the operand of its mode. */
module CpuAddressing {
  import opened Bits
  import opened CpuTypes
  import opened CpuExec
  import opened CpuFlow
  import opened InstructionSet
  import opened Opcodes

  datatype Kind = Reading | Storing | Modifying

  /** The micro-operations between the opcode fetch and the first access to the operand. */
  function Finding(mode: Mode, kind: Kind): seq<MicroOp> {
    match mode
    case ZpMode => [FetchLo()]
    case ZpIndexedMode(index) =>
      if kind.Reading? then [FetchLo(), DummyReadAdd(AddressSource.LO, index, Target.DataBus, NoOp)]
      else [FetchLo(), AddIndexToLo(index)]
    case AbsMode => [FetchLo(), FetchHi()]
    case AbsIndexedMode(index) => [FetchLo(), FetchHiAddIndex(index, NoOp)]
    case IndexedIndirectMode =>
      [FetchLo(), AddToPointer(kind), PointerLo(), if kind.Modifying? then PointerHiAbsolute() else PointerHi()]
    case IndirectIndexedMode =>
      [FetchLo(), if kind.Storing? then PointerLoFrom(NoOp) else ReadTo(AddressSource.LO, Target.DataBus), PointerHiAddY(NoOp)]
  }

  function AddToPointer(kind: Kind): MicroOp {
    if kind.Reading? then DummyReadAdd(AddressSource.LO, Source.X, Target.DataBus, NoOp) else AddXToPointer()
  }

  predicate Proper(mode: Mode) {
    mode.ZpIndexedMode? || mode.AbsIndexedMode? ==> IndexRegister(mode.index)
  }

  // --- the latches on the way

  function LatchIndex(c: Core, index: Source): Core { c.(lo := Plus8(c.lo, IndexValue(c, index))) }
  function LatchAdded(c: Core, index: Source, dev: Device): Core {
    Load(c, ZeroPage(c.lo), dev).(db := Plus8(c.lo, IndexValue(c, index)))
  }

  function PointerLoRead(c: Core, dev: Device): Core {
    Load(c, ZeroPage(c.db), dev).(lo := LoadValue(c, ZeroPage(c.db), dev))
  }

  function PointerHiRead(c: Core, dev: Device): Core {
    Load(c, ZeroPage(Plus8(c.db, 1)), dev).(hi := LoadValue(c, ZeroPage(Plus8(c.db, 1)), dev))
  }

  function PointerRead(c: Core, dev: Device): Core {
    Load(c, ZeroPage(c.lo), dev).(db := LoadValue(c, ZeroPage(c.lo), dev))
  }

  function PointerHiIndexed(c: Core, dev: Device): Core {
    Load(c, ZeroPage(Plus8(c.lo, 1)), dev).(hi := LoadValue(c, ZeroPage(Plus8(c.lo, 1)), dev), lo := Plus8(c.db, c.y))
  }

  /** The registers once the operand is found; `c` is behind the opcode. */
  function Located(c: Core, mode: Mode, reading: bool, dev: Device): Core {
    var l := LoFetched(c, dev);
    match mode
    case ZpMode => l
    case ZpIndexedMode(index) => if reading then LatchAdded(l, index, dev) else LatchIndex(l, index)
    case AbsMode => HiFetched(l, dev)
    case AbsIndexedMode(index) => HiIndexed(l, index, dev)
    case IndexedIndirectMode => PointerHiRead(PointerLoRead(LatchAdded(l, Source.X, dev), dev), dev)
    case IndirectIndexedMode => PointerHiIndexed(PointerRead(l, dev), dev)
  }

  function HiIndexed(c: Core, index: Source, dev: Device): Core {
    HiFetched(c, dev).(lo := Plus8(c.lo, IndexValue(c, index)))
  }

  // --- the micro-operations lead there

  lemma StillReady(c: Core, index: Source, dev: Device)
    requires Ready(c)
    ensures Ready(LoFetched(c, dev)) && Ready(HiFetched(c, dev)) && Ready(HiIndexed(c, index, dev))
    ensures Ready(LatchIndex(c, index)) && Ready(LatchAdded(c, index, dev))
    ensures Ready(PointerLoRead(c, dev)) && Ready(PointerHiRead(c, dev))
    ensures Ready(PointerRead(c, dev)) && Ready(PointerHiIndexed(c, dev))
  {
    hide LoadValue, Plus8, ZeroPage, IndexValue;
  }

  lemma LocatedReady(c: Core, mode: Mode, reading: bool, dev: Device)
    requires Ready(c)
    ensures Ready(Located(c, mode, reading, dev))
  {
    var l := LoFetched(c, dev);
    StillReady(c, Source.X, dev);
    hide LoFetched, HiFetched, HiIndexed, LatchIndex, LatchAdded, PointerLoRead, PointerHiRead, PointerRead,
      PointerHiIndexed, Ready;
    match mode {
      case ZpMode =>
      case ZpIndexedMode(index) => StillReady(l, index, dev);
      case AbsMode => StillReady(l, Source.X, dev);
      case AbsIndexedMode(index) => StillReady(l, index, dev);
      case IndexedIndirectMode =>
        StillReady(l, Source.X, dev);
        StillReady(LatchAdded(l, Source.X, dev), Source.X, dev);
        StillReady(PointerLoRead(LatchAdded(l, Source.X, dev), dev), Source.X, dev);
      case IndirectIndexedMode =>
        StillReady(l, Source.X, dev);
        StillReady(PointerRead(l, dev), Source.X, dev);
    }
  }

  lemma FindsLo(c: Core, todo: seq<MicroOp>, rest: seq<MicroOp>, vec: word, cfg: Config, dev: Device)
    requires Ready(c) && todo == [FetchLo()] + rest
    ensures Leads(Work(c, todo), 1, Work(LoFetched(c, dev), rest), vec, cfg, dev)
  {
    hide Exec, Ready, LoFetched;
    DoFetch(c, vec, cfg, dev);
    LeadsOne(c, FetchLo(), LoFetched(c, dev), todo, rest, vec, cfg, dev);
  }

  lemma FindsTwo(c: Core, op: MicroOp, d: Core, rest: seq<MicroOp>, vec: word, cfg: Config, dev: Device)
    requires Ready(c) && Ready(LoFetched(c, dev)) && Ordinary(op)
    requires Exec(LoFetched(c, dev), op, vec, cfg, dev) == Effect(d, [])
    ensures Leads(Work(c, [FetchLo(), op] + rest), 2, Work(d, rest), vec, cfg, dev)
  {
    hide Exec, Ready, Leads, Ordinary, LoFetched;
    var todo := [FetchLo(), op] + rest;
    assert todo == [FetchLo()] + ([op] + rest);
    FindsLo(c, todo, [op] + rest, vec, cfg, dev);
    Then(Work(c, todo), 1, LoFetched(c, dev), [op] + rest, op, d, rest, vec, cfg, dev);
  }

  lemma OrdinaryFinding(mode: Mode)
    ensures Ordinary(FetchLo()) && Ordinary(FetchHi())
    ensures mode.ZpIndexedMode? || mode.AbsIndexedMode? ==>
      && Ordinary(FetchHiAddIndex(mode.index, NoOp)) && Ordinary(AddIndexToLo(mode.index))
      && Ordinary(DummyReadAdd(AddressSource.LO, mode.index, Target.DataBus, NoOp))
  {
  }

  lemma {:induction false} FindsShort(c: Core, mode: Mode, kind: Kind, rest: seq<MicroOp>, vec: word, cfg: Config, dev: Device)
    requires Ready(c) && Proper(mode) && (mode.ZpIndexedMode? || mode.AbsMode? || mode.AbsIndexedMode?)
    ensures Leads(Work(c, Finding(mode, kind) + rest), 2, Work(Located(c, mode, kind.Reading?, dev), rest), vec, cfg, dev)
  {
    hide Exec, Ready, Leads, LoFetched, HiFetched, Plus8, ZeroPage, IndexValue, LoadValue, Ordinary;
    OrdinaryFinding(mode);
    var l := LoFetched(c, dev);
    StillReady(c, Source.X, dev);
    match mode {
      case AbsMode =>
        DoFetch(l, vec, cfg, dev);
        FindsTwo(c, FetchHi(), HiFetched(l, dev), rest, vec, cfg, dev);
      case AbsIndexedMode(index) =>
        DoHiAddIndex(l, index, vec, cfg, dev);
        FindsTwo(c, FetchHiAddIndex(index, NoOp), HiIndexed(l, index, dev), rest, vec, cfg, dev);
      case ZpIndexedMode(index) =>
        if kind.Reading? {
          DoDummyAdd(l, index, vec, cfg, dev);
          FindsTwo(c, DummyReadAdd(AddressSource.LO, index, Target.DataBus, NoOp), LatchAdded(l, index, dev), rest, vec, cfg, dev);
        } else {
          DoAddIndexToLo(l, index, vec, cfg, dev);
          FindsTwo(c, AddIndexToLo(index), LatchIndex(l, index), rest, vec, cfg, dev);
        }
    }
  }

  lemma PointerFinding(c: Core, kind: Kind, rest: seq<MicroOp>, dev: Device)
    ensures var b := if kind.Modifying? then PointerHiAbsolute() else PointerHi();
      Finding(IndexedIndirectMode, kind) + rest == [FetchLo(), AddToPointer(kind)] + ([PointerLo()] + ([b] + rest))
    ensures Located(c, IndexedIndirectMode, kind.Reading?, dev)
         == PointerHiRead(PointerLoRead(LatchAdded(LoFetched(c, dev), Source.X, dev), dev), dev)
  {
    hide FetchLo, AddToPointer, PointerLo, PointerHi, PointerHiAbsolute, PointerHiRead, PointerLoRead, LatchAdded, LoFetched;
  }

  lemma FindsPointer(c: Core, kind: Kind, rest: seq<MicroOp>, vec: word, cfg: Config, dev: Device)
    requires Ready(c)
    ensures Leads(Work(c, Finding(IndexedIndirectMode, kind) + rest), 4,
                  Work(Located(c, IndexedIndirectMode, kind.Reading?, dev), rest), vec, cfg, dev)
  {
    hide Exec, Ready, Leads, LoFetched, LatchAdded, AddToPointer, PointerLoRead, PointerHiRead, Ordinary, Finding, Located,
      FetchLo, PointerLo, PointerHi, PointerHiAbsolute;
    var l := LoFetched(c, dev);
    var m := LatchAdded(l, Source.X, dev);
    var n := PointerLoRead(m, dev);
    StillReady(c, Source.X, dev);
    StillReady(l, Source.X, dev);
    StillReady(m, Source.X, dev);
    var a := AddToPointer(kind);
    var b := if kind.Modifying? then PointerHiAbsolute() else PointerHi();
    PointerAdded(l, kind, vec, cfg, dev);
    PointerReads(m, n, b, vec, cfg, dev);
    var t2 := [b] + rest;
    var t1 := [PointerLo()] + t2;
    PointerFinding(c, kind, rest, dev);
    FindsTwo(c, a, m, t1, vec, cfg, dev);
    var w := Work(c, Finding(IndexedIndirectMode, kind) + rest);
    Then(w, 2, m, t1, PointerLo(), n, t2, vec, cfg, dev);
    Then(w, 3, n, t2, b, PointerHiRead(n, dev), rest, vec, cfg, dev);
  }

  lemma PointerReads(m: Core, n: Core, b: MicroOp, vec: word, cfg: Config, dev: Device)
    requires b == PointerHi() || b == PointerHiAbsolute()
    ensures Exec(m, PointerLo(), vec, cfg, dev) == Effect(PointerLoRead(m, dev), [])
    ensures Exec(n, b, vec, cfg, dev) == Effect(PointerHiRead(n, dev), [])
    ensures Ordinary(PointerLo()) && Ordinary(b)
  {
    hide Exec, Load, LoadValue, ZeroPage, Plus8;
    DoReadLatch(m, AddressSource.Temp, ZeroPage(m.db), vec, cfg, dev);
    DoPointerHi(n, vec, cfg, dev);
  }

  lemma PointerAdded(l: Core, kind: Kind, vec: word, cfg: Config, dev: Device)
    ensures Exec(l, AddToPointer(kind), vec, cfg, dev) == Effect(LatchAdded(l, Source.X, dev), [])
    ensures Ordinary(AddToPointer(kind))
  {
    hide Exec, ZeroPage, Plus8, Load;
    DoDummyAdd(l, Source.X, vec, cfg, dev);
    DoAddX(l, vec, cfg, dev);
  }

  lemma IndirectReads(l: Core, m: Core, a: MicroOp, vec: word, cfg: Config, dev: Device)
    requires a == PointerLoFrom(NoOp) || a == ReadTo(AddressSource.LO, Target.DataBus)
    ensures Exec(l, a, vec, cfg, dev) == Effect(PointerRead(l, dev), [])
    ensures Exec(m, PointerHiAddY(NoOp), vec, cfg, dev) == Effect(PointerHiIndexed(m, dev), [])
    ensures Ordinary(a) && Ordinary(PointerHiAddY(NoOp))
  {
    hide Exec, Load, LoadValue, ZeroPage, Plus8;
    DoPointerLoFrom(l, vec, cfg, dev);
    DoReadLatch(l, AddressSource.LO, ZeroPage(l.lo), vec, cfg, dev);
    DoPointerHiAddY(m, vec, cfg, dev);
  }

  lemma IndirectFinding(c: Core, kind: Kind, rest: seq<MicroOp>, dev: Device)
    ensures var a := if kind.Storing? then PointerLoFrom(NoOp) else ReadTo(AddressSource.LO, Target.DataBus);
      Finding(IndirectIndexedMode, kind) + rest == [FetchLo(), a] + ([PointerHiAddY(NoOp)] + rest)
    ensures Located(c, IndirectIndexedMode, kind.Reading?, dev) == PointerHiIndexed(PointerRead(LoFetched(c, dev), dev), dev)
  {
    hide FetchLo, PointerLoFrom, ReadTo, PointerHiAddY, PointerHiIndexed, PointerRead, LoFetched;
  }

  lemma FindsIndirect(c: Core, kind: Kind, rest: seq<MicroOp>, vec: word, cfg: Config, dev: Device)
    requires Ready(c)
    ensures Leads(Work(c, Finding(IndirectIndexedMode, kind) + rest), 3,
                  Work(Located(c, IndirectIndexedMode, kind.Reading?, dev), rest), vec, cfg, dev)
  {
    hide Exec, Ready, Leads, LoFetched, PointerRead, PointerHiIndexed, Ordinary, Finding, Located, FetchLo, PointerLoFrom,
      ReadTo, PointerHiAddY;
    var l := LoFetched(c, dev);
    var m := PointerRead(l, dev);
    StillReady(c, Source.X, dev);
    StillReady(l, Source.X, dev);
    var a := if kind.Storing? then PointerLoFrom(NoOp) else ReadTo(AddressSource.LO, Target.DataBus);
    IndirectReads(l, m, a, vec, cfg, dev);
    var t := [PointerHiAddY(NoOp)] + rest;
    IndirectFinding(c, kind, rest, dev);
    FindsTwo(c, a, m, t, vec, cfg, dev);
    Then(Work(c, Finding(IndirectIndexedMode, kind) + rest), 2, m, t, PointerHiAddY(NoOp), PointerHiIndexed(m, dev), rest, vec, cfg, dev);
  }

  lemma LocatedZp(c: Core, reading: bool, dev: Device)
    ensures Located(c, ZpMode, reading, dev) == LoFetched(c, dev)
  {
  }

  lemma Finds(c: Core, mode: Mode, kind: Kind, rest: seq<MicroOp>, vec: word, cfg: Config, dev: Device)
    requires Ready(c) && Proper(mode)
    ensures Leads(Work(c, Finding(mode, kind) + rest), ResolveCycles(mode) - 1,
                  Work(Located(c, mode, kind.Reading?, dev), rest), vec, cfg, dev)
    ensures Ready(Located(c, mode, kind.Reading?, dev))
  {
    hide Leads, Ready, FetchLo, Located, LoFetched;
    LocatedReady(c, mode, kind.Reading?, dev);
    if mode.ZpMode? {
      assert Located(c, mode, kind.Reading?, dev) == LoFetched(c, dev) by { LocatedZp(c, kind.Reading?, dev); }
      FindsLo(c, Finding(mode, kind) + rest, rest, vec, cfg, dev);
    } else if mode.IndexedIndirectMode? {
      FindsPointer(c, kind, rest, vec, cfg, dev);
    } else if mode.IndirectIndexedMode? {
      FindsIndirect(c, kind, rest, vec, cfg, dev);
    } else {
      FindsShort(c, mode, kind, rest, vec, cfg, dev);
    }
  }

  // --- and what is found is the operand

  /** The registers are the same but for the operand latches. */
  predicate Agree(c: Core, d: Core) {
    && c.pc == d.pc && c.sp == d.sp && c.a == d.a && c.x == d.x && c.y == d.y && c.p == d.p
    && c.op == d.op && c.rdy == d.rdy && c.page == d.page && c.halted == d.halted
    && c.shaRdyLow == d.shaRdyLow && c.log == d.log
  }

  function OpcodeFetched(c: Core, op: OpType, dev: Device): Core {
    Load(c, c.pc, dev).(pc := Next(c.pc), op := op)
  }

  /** Where the access to the operand of a mode reads its address from. */
  function OperandSource(mode: Mode, reading: bool): AddressSource {
    match mode
    case ZpMode => AddressSource.LO
    case ZpIndexedMode(_) => if reading then AddressSource.Temp else AddressSource.LO
    case _ => Latch
  }

  function OperandLength(mode: Mode): nat {
    if mode.AbsMode? || mode.AbsIndexedMode? then 2 else 1
  }

  lemma Lengths(pc: word)
    ensures Plus(pc, 1) == Next(pc)
    ensures Plus(pc, 2) == Next(Next(pc))
    ensures Plus(pc, 3) == Next(Next(Next(pc)))
  {
    hide Plus, Next;
    PlusStep(pc, 0);
    PlusStep(pc, 1);
    PlusStep(pc, 2);
  }

  lemma PlusStep(pc: word, n: nat)
    ensures Plus(pc, 0) == pc && Plus(pc, n + 1) == Next(Plus(pc, n))
  {
  }

  /** What `LocatesPlain` promises of the modes without a carry. */
  predicate Locates(c: Core, op: OpType, mode: Mode, reading: bool, dev: Device) {
    var o := Resolve(c, mode, reading, dev);
    var l := Located(OpcodeFetched(c, op, dev), mode, reading, dev);
    Agree(l, Begun(c, op, o.log)) && AddressOf(l, OperandSource(mode, reading), 0) == Some(o.addr) && o.addr == o.unfixed
  }

  lemma LocatesZp(c: Core, op: OpType, dev: Device, reading: bool)
    requires OperandBytes(op) == 1
    ensures Locates(c, op, ZpMode, reading, dev)
  {
    hide Plus8, ZeroPage, Pair, Next, Plus;
    Lengths(c.pc);
  }

  lemma LocatesZpIndexed(c: Core, op: OpType, index: Source, dev: Device)
    requires OperandBytes(op) == 1 && IndexRegister(index)
    ensures Locates(c, op, ZpIndexedMode(index), false, dev)
  {
    hide Plus8, ZeroPage, Pair, Next, Plus, IndexValue, LoadValue;
    Lengths(c.pc);
    var f := OpcodeFetched(c, op, dev);
    SameIndex(c, LoFetched(f, dev), index);
    OneByteBehind(c, op, dev);
    hide LoFetched, Look, Behind, Answer, OpcodeFetched;
  }

  lemma LocatesZpIndexedRead(c: Core, op: OpType, index: Source, dev: Device)
    requires OperandBytes(op) == 1 && IndexRegister(index)
    ensures Locates(c, op, ZpIndexedMode(index), true, dev)
  {
    hide Plus8, ZeroPage, Pair, Next, Plus, IndexValue;
    Lengths(c.pc);
    var f := OpcodeFetched(c, op, dev);
    SameIndex(c, LoFetched(f, dev), index);
    OneByteBehind(c, op, dev);
    hide LoFetched, Behind, OpcodeFetched;
  }

  /** One operand byte. */
  lemma OneByteBehind(c: Core, op: OpType, dev: Device)
    requires OperandBytes(op) == 1
    ensures var l := LoFetched(OpcodeFetched(c, op, dev), dev);
      && Agree(l, Begun(c, op, Look(Look(c.log, c.pc, dev), Next(c.pc), dev)))
      && l.lo == Answer(Look(c.log, c.pc, dev), Next(c.pc), dev)
  {
    hide Next, Plus;
    Lengths(c.pc);
  }

  lemma LocatesAbs(c: Core, op: OpType, dev: Device, reading: bool)
    requires OperandBytes(op) == 2
    ensures Locates(c, op, AbsMode, reading, dev)
  {
    hide Plus8, ZeroPage, Pair, Next, Plus;
    Lengths(c.pc);
  }

  lemma LocatesPointer(c: Core, op: OpType, reading: bool, dev: Device)
    requires OperandBytes(op) == 1
    ensures Locates(c, op, IndexedIndirectMode, reading, dev)
  {
    hide Plus8, ZeroPage, Pair, Next, Plus;
    Lengths(c.pc);
  }

  lemma LocatesPlain(c: Core, op: OpType, mode: Mode, reading: bool, dev: Device)
    requires Proper(mode) && OperandBytes(op) == OperandLength(mode) && !InstructionSet.IsIndexed(mode)
    ensures Locates(c, op, mode, reading, dev)
  {
    hide Locates;
    match mode {
      case ZpMode => LocatesZp(c, op, dev, reading);
      case ZpIndexedMode(index) => LocatesZpIndexed(c, op, index, dev); LocatesZpIndexedRead(c, op, index, dev);
      case AbsMode => LocatesAbs(c, op, dev, reading);
      case IndexedIndirectMode => LocatesPointer(c, op, reading, dev);
    }
  }

  /** An indexed address is latched without its carry; the carry shows in the low byte. */
  predicate LatchesIndexed(l: Core, index: byte, o: Operand) {
    && Pair(l.hi, l.lo) == o.unfixed
    && (Borrows(l.lo, index) <==> Crossed(o))
    && o.addr == if Crossed(o) then Pair(l.hi + 1, l.lo) else Pair(l.hi, l.lo)
  }

  lemma LocatesAbsIndexed(c: Core, op: OpType, index: Source, reading: bool, dev: Device)
    requires OperandBytes(op) == 2 && IndexRegister(index)
    ensures var o := Resolve(c, AbsIndexedMode(index), reading, dev);
      var l := Located(OpcodeFetched(c, op, dev), AbsIndexedMode(index), reading, dev);
      Agree(l, Begun(c, op, o.log)) && LatchesIndexed(l, IndexValue(c, index), o)
  {
    hide Plus8, ZeroPage, Pair, Next, Plus, Indexed, Crossed, LatchesIndexed, IndexValue;
    Lengths(c.pc);
    var l1 := Look(c.log, c.pc, dev);
    var p1 := Next(c.pc);
    var b := Answer(l1, p1, dev);
    var l2 := Look(l1, p1, dev);
    var h := Answer(l2, Next(p1), dev);
    CarryLatched(h, b, IndexValue(c, index), Look(l2, Next(p1), dev), Located(OpcodeFetched(c, op, dev), AbsIndexedMode(index), reading, dev));
    SameIndex(c, LoFetched(OpcodeFetched(c, op, dev), dev), index);
  }

  lemma LocatesIndirect(c: Core, op: OpType, reading: bool, dev: Device)
    requires OperandBytes(op) == 1
    ensures var o := Resolve(c, IndirectIndexedMode, reading, dev);
      var l := Located(OpcodeFetched(c, op, dev), IndirectIndexedMode, reading, dev);
      Agree(l, Begun(c, op, o.log)) && LatchesIndexed(l, c.y, o)
  {
    hide Plus8, ZeroPage, Pair, Next, Plus, Indexed, Crossed, LatchesIndexed;
    Lengths(c.pc);
    var l2 := Look(Look(c.log, c.pc, dev), Next(c.pc), dev);
    var b := Answer(Look(c.log, c.pc, dev), Next(c.pc), dev);
    var l3 := Look(l2, ZeroPage(b), dev);
    var z := ZeroPage(Plus8(b, 1));
    CarryLatched(Answer(l3, z, dev), Answer(l2, ZeroPage(b), dev), c.y, Look(l3, z, dev),
                 Located(OpcodeFetched(c, op, dev), IndirectIndexedMode, reading, dev));
  }

  lemma CarryLatched(h: byte, b: byte, index: byte, log: seq<Access>, l: Core)
    ensures l.hi == h && l.lo == Plus8(b, index) ==> LatchesIndexed(l, index, Indexed(Pair(h, b), index, log))
    ensures Indexed(Pair(h, b), index, log).log == log
  {
    hide Pair, Plus8, Borrows, Crossed;
    IndexCarry(h, b, index, log);
  }
}
