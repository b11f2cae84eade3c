/** The micro-operations of an opcode, run one after another, amount to its instruction. */
module CpuRefinement {
  import opened Bits
  import opened CpuTypes
  import opened CpuAlu
  import opened CpuExec
  import opened CpuFlow
  import opened CpuAddressing
  import opened CpuAccess
  import opened InstructionSet
  import opened Opcodes

  function Fetching(c: Core): Work { Work(c, [FetchOpcode]) }

  lemma Begins(c: Core, op: OpType, vec: word, cfg: Config, dev: Device)
    requires Ready(c) && op == Decode(LoadValue(c, c.pc, dev))
    ensures Leads(Fetching(c), 1, Work(OpcodeFetched(c, op, dev), Program(op)), vec, cfg, dev)
    ensures Ready(OpcodeFetched(c, op, dev))
  {
    hide Exec, Decode, LoadValue, Program, Leads, Next;
    IsFetch(c, NoOp, vec, cfg, dev);
    LeadsPush(c, FetchOpcode, OpcodeFetched(c, op, dev), Program(op), vec, cfg, dev);
  }

  /** The operand is found in the cycles its mode takes. */
  lemma BeginsFinding(c: Core, op: OpType, mode: Mode, kind: Kind, rest: seq<MicroOp>, vec: word, cfg: Config, dev: Device)
    requires Ready(c) && op == Decode(LoadValue(c, c.pc, dev)) && Proper(mode)
    requires Program(op) == Finding(mode, kind) + rest
    ensures var l := Located(OpcodeFetched(c, op, dev), mode, kind.Reading?, dev);
      Leads(Fetching(c), ResolveCycles(mode), Work(l, rest), vec, cfg, dev) && Ready(l)
  {
    hide Decode, LoadValue, Program, Leads, Finding, Located, OpcodeFetched, Ready;
    Begins(c, op, vec, cfg, dev);
    var f := OpcodeFetched(c, op, dev);
    Finds(f, mode, kind, rest, vec, cfg, dev);
    LeadsOn(Fetching(c), 1, Work(f, Program(op)), ResolveCycles(mode) - 1,
            Work(Located(f, mode, kind.Reading?, dev), rest), vec, cfg, dev);
  }

  // --- reads

  lemma SameAddress(l: Core, mode: Mode, reading: bool, vec: word)
    ensures AddressOf(l, OperandSource(mode, reading), vec) == AddressOf(l, OperandSource(mode, reading), 0)
    ensures AddressOf(l, Latch, vec) == Some(Pair(l.hi, l.lo))
  {
    hide Pair, ZeroPage;
  }

  lemma OrdinaryReads(mode: Mode, reading: bool, target: Target, cb: Callback)
    ensures Ordinary(MicroOp.Read(OperandSource(mode, reading), target, cb))
  {
  }

  lemma ReadsPlain(c: Core, op: OpType, mode: Mode, target: Target, cb: Callback, vec: word, cfg: Config, dev: Device)
    returns (r: Core)
    requires Ready(c) && op == Decode(LoadValue(c, c.pc, dev)) && Proper(mode) && !InstructionSet.IsIndexed(mode)
    requires ReadEntry(target, cb) && OperandBytes(op) == OperandLength(mode)
    requires Program(op) == Finding(mode, Reading) + [MicroOp.Read(OperandSource(mode, true), target, cb)]
    ensures var o := ReadInstruction(c, op, mode, target, cb, dev);
      Leads(Fetching(c), o.cycles, Work(r, []), vec, cfg, dev) && Agree(r, o.core)
  {
    hide Decode, LoadValue, Program, Leads, Finding, Located, OpcodeFetched, Ready, Exec, Resolve, Agree, Called,
      WriteRegister, Finished, Ordinary, OperandSource, AddressOf, PlainCallback, Proper;
    var read := MicroOp.Read(OperandSource(mode, true), target, cb);
    var l := Located(OpcodeFetched(c, op, dev), mode, true, dev);
    var o := Resolve(c, mode, true, dev);
    BeginsFinding(c, op, mode, Reading, [read], vec, cfg, dev);
    LocatesPlain(c, op, mode, true, dev);
    SameAddress(l, mode, true, vec);
    NoBranchEntry(target, cb);
    DoFinalRead(l, OperandSource(mode, true), o.addr, target, cb, vec, cfg, dev);
    r := Finished(l, o.addr, target, cb, dev);
    OrdinaryReads(mode, true, target, cb);
    Then(Fetching(c), ResolveCycles(mode), l, [read], read, r, [], vec, cfg, dev);
    FinishedAgrees(l, Begun(c, op, o.log), o.addr, target, cb, dev);
  }

  lemma NoBranchEntry(target: Target, cb: Callback)
    requires ReadEntry(target, cb)
    ensures ReadTarget(target) && !cb.BRANCH?
  {
  }

  lemma ReadsIndexed(c: Core, op: OpType, mode: Mode, index: Source, target: Target, cb: Callback, vec: word, cfg: Config, dev: Device)
    returns (r: Core)
    requires Ready(c) && op == Decode(LoadValue(c, c.pc, dev))
    requires mode == AbsIndexedMode(index) || (mode == IndirectIndexedMode && index == Source.Y)
    requires ReadEntry(target, cb) && Independent(index, target) && OperandBytes(op) == OperandLength(mode)
    requires Program(op) == Finding(mode, Reading) + [ReadPageCrossAware(index, target, true, cb)]
    ensures var o := ReadInstruction(c, op, mode, target, cb, dev);
      Leads(Fetching(c), o.cycles, Work(r, []), vec, cfg, dev) && Agree(r, o.core)
  {
    hide Decode, LoadValue, Program, Leads, Finding, Located, OpcodeFetched, Ready, Exec, Resolve, Agree, Called,
      WriteRegister, Finished, Ordinary, PlainCallback, Independent, IndexValue, LatchesIndexed, Crossed, Pair, Load,
      Borrows, OperandBytes, Behind, Look, ReadInstruction, Answer;
    var read := ReadPageCrossAware(index, target, true, cb);
    IndexedReadIs(c, op, mode, target, cb, dev);
    var l := Located(OpcodeFetched(c, op, dev), mode, true, dev);
    var o := Resolve(c, mode, true, dev);
    ProperIndexed(mode, index, target);
    BeginsFinding(c, op, mode, Reading, [read], vec, cfg, dev);
    LocatesIndexed(c, op, mode, index, true, dev);
    NoBranchEntry(target, cb);
    DoPageCross(l, index, target, true, cb, vec, cfg, dev);
    var again := MicroOp.Read(Latch, target, cb);
    OrdinaryPageCross(index, target, true, cb);
    CrossedLatch(l, IndexValue(l, index), o);
    if Crossed(o) {
      var e := WriteRegister(Load(l, o.unfixed, dev), target, LoadValue(l, o.unfixed, dev)).(hi := l.hi + 1);
      StillLatched(l, o.unfixed, target, dev);
      DoFinalRead(e, Latch, o.addr, target, cb, vec, cfg, dev);
      r := Finished(e, o.addr, target, cb, dev);
      LeadsPush(l, read, e, [again], vec, cfg, dev);
      LeadsOn(Fetching(c), ResolveCycles(mode), Work(l, [read]), 1, Work(e, [again]), vec, cfg, dev);
      Then(Fetching(c), ResolveCycles(mode) + 1, e, [again], again, r, [], vec, cfg, dev);
      FinishedAgain(l, Begun(c, op, o.log), o.unfixed, o.addr, target, cb, l.hi + 1, dev);
    } else {
      r := Finished(l, o.addr, target, cb, dev);
      Then(Fetching(c), ResolveCycles(mode), l, [read], read, r, [], vec, cfg, dev);
      FinishedAgrees(l, Begun(c, op, o.log), o.addr, target, cb, dev);
    }
  }

  lemma IndexedReadIs(c: Core, op: OpType, mode: Mode, target: Target, cb: Callback, dev: Device)
    requires InstructionSet.IsIndexed(mode)
    ensures var o, r := Resolve(c, mode, true, dev), ReadInstruction(c, op, mode, target, cb, dev);
      var l := if Crossed(o) then Look(o.log, o.unfixed, dev) else o.log;
      && r.core == Called(WriteRegister(Begun(c, op, Look(l, o.addr, dev)), target, Answer(l, o.addr, dev)), cb).core
      && r.cycles == ResolveCycles(mode) + if Crossed(o) then 2 else 1
  {
    hide Called, WriteRegister, Resolve, Crossed, Behind, Look, Answer;
  }

  lemma ProperIndexed(mode: Mode, index: Source, target: Target)
    requires mode == AbsIndexedMode(index) || (mode == IndirectIndexedMode && index == Source.Y)
    ensures Independent(index, target) ==> Proper(mode)
    ensures IndexRegister(index) ==> Proper(mode)
  {
  }

  lemma OrdinaryPageCross(index: Source, target: Target, schedule: bool, cb: Callback)
    ensures Ordinary(ReadPageCrossAware(index, target, schedule, cb)) && Ordinary(MicroOp.Read(Latch, target, cb))
  {
  }

  lemma LocatesIndexed(c: Core, op: OpType, mode: Mode, index: Source, reading: bool, dev: Device)
    requires mode == AbsIndexedMode(index) || (mode == IndirectIndexedMode && index == Source.Y)
    requires OperandBytes(op) == OperandLength(mode) && Proper(mode)
    ensures var o := Resolve(c, mode, reading, dev);
      var l := Located(OpcodeFetched(c, op, dev), mode, reading, dev);
      Agree(l, Begun(c, op, o.log)) && LatchesIndexed(l, IndexValue(l, index), o)
  {
    hide Resolve, Located, LatchesIndexed;
    if mode.AbsIndexedMode? {
      LocatesAbsIndexed(c, op, index, reading, dev);
    } else {
      LocatesIndirect(c, op, reading, dev);
    }
  }

  lemma CrossedLatch(l: Core, index: byte, o: Operand)
    requires LatchesIndexed(l, index, o)
    ensures Pair(l.hi, l.lo) == o.unfixed && (Borrows(l.lo, index) <==> Crossed(o))
    ensures o.addr == if Crossed(o) then Pair(l.hi + 1, l.lo) else o.unfixed
  {
    hide Pair, Borrows, Crossed;
  }

  lemma StillLatched(l: Core, first: word, target: Target, dev: Device)
    requires ReadTarget(target)
    ensures var e := WriteRegister(Load(l, first, dev), target, LoadValue(l, first, dev)).(hi := l.hi + 1);
      AddressOf(e, Latch, 0) == Some(Pair(l.hi + 1, l.lo)) && (Ready(l) ==> Ready(e))
  {
    hide LoadValue, TargetPc, TargetStatus, Pair;
  }

  // --- the page fix in front of indexed stores and modifications

  predicate Discards(target: Target) {
    target.Nowhere? || target.DataBus?
  }

  lemma Discarded(c: Core, d: Core, target: Target, v: byte)
    requires Agree(c, d) && Discards(target)
    ensures var w := WriteRegister(c, target, v);
      Agree(w, d) && w.lo == c.lo && w.hi == c.hi && Called(w, NoOp) == Effect(w, [])
  {
  }

  lemma AgreeLoaded(c: Core, d: Core, log: seq<Access>, addr: word, dev: Device)
    requires Agree(c, d.(log := log))
    ensures Agree(Load(c, addr, dev), d.(log := Look(log, addr, dev)))
    ensures LoadValue(c, addr, dev) == Answer(log, addr, dev)
    ensures Load(c, addr, dev).hi == c.hi && Load(c, addr, dev).lo == c.lo && Load(c, addr, dev).db == c.db
  {
  }

  lemma HiAgrees(c: Core, d: Core, hi: byte)
    requires Agree(c, d)
    ensures Agree(c.(hi := hi), d) && (Ready(c) ==> Ready(c.(hi := hi)))
  {
  }

  lemma AgreeReady(c: Core, d: Core)
    requires Agree(c, d)
    ensures Ready(c) <==> Ready(d)
    ensures c.log == d.log
  {
  }

  /** The high byte is right after one read at the unfixed address, whether or not the index carried. */
  lemma FixesPage(l: Core, d: Core, o: Operand, index: Source, target: Target, rest: seq<MicroOp>, vec: word, cfg: Config, dev: Device)
    returns (e: Core)
    requires Ready(l) && Agree(l, d.(log := o.log)) && IndexRegister(index) && Discards(target)
    requires LatchesIndexed(l, IndexValue(l, index), o)
    ensures Leads(Work(l, [ReadPageCrossAware(index, target, false, NoOp)] + rest), 1, Work(e, rest), vec, cfg, dev)
    ensures Agree(e, d.(log := Look(o.log, o.unfixed, dev))) && Pair(e.hi, e.lo) == o.addr && Ready(e)
  {
    hide Leads, Ready, Exec, Agree, Called, Ordinary, IndexValue, LatchesIndexed, Crossed, Pair, Load, LoadValue,
      Borrows, WriteRegister, Look, Independent, IndexRegister, Discards;
    var read := ReadPageCrossAware(index, target, false, NoOp);
    DiscardIndependent(index, target);
    DoPageCross(l, index, target, false, NoOp, vec, cfg, dev);
    OrdinaryPageCross(index, target, false, NoOp);
    CrossedLatch(l, IndexValue(l, index), o);
    var m := Load(l, o.unfixed, dev);
    var f := d.(log := Look(o.log, o.unfixed, dev));
    AgreeLoaded(l, d, o.log, o.unfixed, dev);
    var w := WriteRegister(m, target, LoadValue(l, o.unfixed, dev));
    Discarded(m, f, target, LoadValue(l, o.unfixed, dev));
    AgreeReady(l, d.(log := o.log));
    AgreeReady(w, f);
    ReadyLog(d, o.log, f.log);
    if Crossed(o) {
      e := w.(hi := l.hi + 1);
      HiAgrees(w, f, l.hi + 1);
    } else {
      e := w;
    }
    LeadsOne(l, read, e, [read] + rest, rest, vec, cfg, dev);
  }

  lemma ReadyLog(d: Core, log: seq<Access>, more: seq<Access>)
    ensures Ready(d.(log := log)) <==> Ready(d.(log := more))
  {
  }

  lemma DiscardIndependent(index: Source, target: Target)
    requires IndexRegister(index) && Discards(target)
    ensures Independent(index, target)
  {
  }

  // --- writes

  function OperandTarget(mode: Mode): Target {
    if mode.ZpMode? || mode.ZpIndexedMode? then LoWrite else Target.AddressLatch
  }

  lemma TargetsOperand(l: Core, mode: Mode, addr: word)
    ensures AddressOf(l, OperandSource(mode, false), 0) == Some(addr) ==> TargetAddress(l, OperandTarget(mode)) == addr
    ensures Pair(l.hi, l.lo) == TargetAddress(l, Target.AddressLatch)
    ensures BusTarget(OperandTarget(mode))
  {
    hide Pair, ZeroPage;
  }

  lemma WritesLatched(l: Core, d: Core, to: Target, addr: word, src: Source, cb: Callback, vec: word, cfg: Config, dev: Device)
    returns (r: Core)
    requires Ready(l) && Agree(l, d) && TargetAddress(l, to) == addr && BusTarget(to) && StoreEntry(src, cb)
    ensures Leads(Work(l, [MicroOp.Write(to, src, true, cb)]), 1, Work(r, []), vec, cfg, dev)
    ensures Agree(r, Store(d, addr, StoredByte(d, src, cb)))
  {
    hide Leads, Ready, Exec, Agree, StoreEntry, Store, StoredByte;
    var write := MicroOp.Write(to, src, true, cb);
    DoFinalWrite(l, to, src, cb, vec, cfg, dev);
    StoredAgrees(l, d, to, src, cb);
    r := Store(if cb.SAX? then l.(db := And(l.a, l.x)) else l, addr, StoredByte(l, src, cb));
    LeadsOne(l, write, r, [write], [], vec, cfg, dev);
  }

  lemma WritesPlain(c: Core, op: OpType, mode: Mode, src: Source, cb: Callback, vec: word, cfg: Config, dev: Device)
    returns (r: Core)
    requires Ready(c) && op == Decode(LoadValue(c, c.pc, dev)) && Proper(mode) && !InstructionSet.IsIndexed(mode)
    requires StoreEntry(src, cb) && OperandBytes(op) == OperandLength(mode)
    requires Program(op) == Finding(mode, Storing) + [MicroOp.Write(OperandTarget(mode), src, true, cb)]
    ensures var o := WriteInstruction(c, op, mode, src, cb, dev);
      Leads(Fetching(c), o.cycles, Work(r, []), vec, cfg, dev) && Agree(r, o.core)
  {
    hide Decode, LoadValue, Program, Leads, Finding, Located, OpcodeFetched, Ready, Exec, Resolve, Agree, Ordinary,
      OperandSource, AddressOf, Proper, StoreEntry, StoredByte, Store, OperandTarget, TargetAddress, BusTarget;
    var write := MicroOp.Write(OperandTarget(mode), src, true, cb);
    var l := Located(OpcodeFetched(c, op, dev), mode, false, dev);
    var o := Resolve(c, mode, false, dev);
    BeginsFinding(c, op, mode, Storing, [write], vec, cfg, dev);
    LocatesPlain(c, op, mode, false, dev);
    TargetsOperand(l, mode, o.addr);
    var d := Begun(c, op, o.log);
    r := WritesLatched(l, d, OperandTarget(mode), o.addr, src, cb, vec, cfg, dev);
    LeadsOn(Fetching(c), ResolveCycles(mode), Work(l, [write]), 1, Work(r, []), vec, cfg, dev);
    SameStored(c, op, o.log, src, cb);
  }

  lemma SameStored(c: Core, op: OpType, log: seq<Access>, src: Source, cb: Callback)
    ensures StoredByte(Begun(c, op, log), src, cb) == StoredByte(c, src, cb)
  {
    hide And, Behind;
  }

  /** A store or a modification finds its indexed operand and reads at the unfixed address. */
  lemma BeginsFixed(c: Core, op: OpType, mode: Mode, index: Source, target: Target, kind: Kind, rest: seq<MicroOp>, vec: word,
                    cfg: Config, dev: Device)
    returns (e: Core)
    requires Ready(c) && op == Decode(LoadValue(c, c.pc, dev)) && IndexRegister(index) && Discards(target) && !kind.Reading?
    requires mode == AbsIndexedMode(index) || (mode == IndirectIndexedMode && index == Source.Y)
    requires OperandBytes(op) == OperandLength(mode)
    requires Program(op) == Finding(mode, kind) + ([ReadPageCrossAware(index, target, false, NoOp)] + rest)
    ensures var o := Resolve(c, mode, false, dev);
      && Leads(Fetching(c), ResolveCycles(mode) + 1, Work(e, rest), vec, cfg, dev)
      && Agree(e, Begun(c, op, o.log).(log := Look(o.log, o.unfixed, dev))) && Pair(e.hi, e.lo) == o.addr && Ready(e)
  {
    hide Decode, LoadValue, Program, Leads, Finding, Located, OpcodeFetched, Ready, Exec, Resolve, Agree, Proper,
      LatchesIndexed, IndexValue, Pair, IndexRegister, Discards, Look;
    var read := ReadPageCrossAware(index, target, false, NoOp);
    var l := Located(OpcodeFetched(c, op, dev), mode, false, dev);
    var o := Resolve(c, mode, false, dev);
    ProperIndexed(mode, index, target);
    BeginsFinding(c, op, mode, kind, [read] + rest, vec, cfg, dev);
    LocatesIndexed(c, op, mode, index, false, dev);
    e := FixesPage(l, Begun(c, op, o.log), o, index, target, rest, vec, cfg, dev);
    LeadsOn(Fetching(c), ResolveCycles(mode), Work(l, [read] + rest), 1, Work(e, rest), vec, cfg, dev);
  }

  lemma WritesIndexed(c: Core, op: OpType, mode: Mode, index: Source, src: Source, cb: Callback, vec: word, cfg: Config, dev: Device)
    returns (r: Core)
    requires Ready(c) && op == Decode(LoadValue(c, c.pc, dev)) && IndexRegister(index)
    requires mode == AbsIndexedMode(index) || (mode == IndirectIndexedMode && index == Source.Y)
    requires StoreEntry(src, cb) && OperandBytes(op) == OperandLength(mode)
    requires Program(op) == Finding(mode, Storing)
               + [ReadPageCrossAware(index, Target.Nowhere, false, NoOp), MicroOp.Write(Target.AddressLatch, src, true, cb)]
    ensures var o := WriteInstruction(c, op, mode, src, cb, dev);
      Leads(Fetching(c), o.cycles, Work(r, []), vec, cfg, dev) && Agree(r, o.core)
  {
    hide Decode, LoadValue, Program, Leads, Finding, Located, OpcodeFetched, Ready, Exec, Resolve, Agree, Proper,
      StoreEntry, StoredByte, Store, TargetAddress, LatchesIndexed, IndexValue, Pair, IndexRegister;
    var read, write := ReadPageCrossAware(index, Target.Nowhere, false, NoOp), MicroOp.Write(Target.AddressLatch, src, true, cb);
    var o := Resolve(c, mode, false, dev);
    assert [read, write] == [read] + [write];
    var e := BeginsFixed(c, op, mode, index, Target.Nowhere, Storing, [write], vec, cfg, dev);
    var log := Look(o.log, o.unfixed, dev);
    TargetsOperand(e, mode, o.addr);
    r := WritesLatched(e, Begun(c, op, log), Target.AddressLatch, o.addr, src, cb, vec, cfg, dev);
    LeadsOn(Fetching(c), ResolveCycles(mode) + 1, Work(e, [write]), 1, Work(r, []), vec, cfg, dev);
    SameStored(c, op, log, src, cb);
  }

  // --- read-modify-writes

  function Modifications(from: AddressSource, to: Target, cb: Callback, pre: bool): seq<MicroOp> {
    [ReadTo(from, Target.DataBus), WriteOld(to, cb), WriteNew(to, pre)]
  }

  function WrittenBackCore(d: Core, addr: word, cb: Callback, dev: Device): Core {
    var v := Answer(d.log, addr, dev);
    Alu(Store(d.(log := Look(d.log, addr, dev), db := v), addr, v), cb)
  }

  /** `h` is about to write the data latch of `m` to `addr`. */
  predicate AboutToWrite(h: Core, to: Target, addr: word, m: Core) {
    Agree(h, m) && h.db == m.db && BusTarget(to) && TargetAddress(h, to) == addr && !h.halted && h.rdy == (addr == DMA_ADDRESS)
  }

  lemma SameTarget(l: Core, m: Core, to: Target)
    requires l.lo == m.lo && l.hi == m.hi
    ensures TargetAddress(l, to) == TargetAddress(m, to)
  {
    hide Pair, ZeroPage;
  }

  lemma DbAgrees(c: Core, d: Core, v: byte)
    requires Agree(c, d)
    ensures Agree(c.(db := v), d.(db := v)) && (Ready(c) ==> Ready(c.(db := v)))
  {
  }

  lemma OrdinaryModify(from: AddressSource, to: Target, cb: Callback, pre: bool)
    requires !from.IrqVec?
    ensures Ordinary(ReadTo(from, Target.DataBus)) && Ordinary(WriteOld(to, cb)) && Ordinary(WriteNew(to, pre))
  {
  }

  lemma ReadyLoad(l: Core, addr: word, v: byte, dev: Device)
    requires Ready(l)
    ensures Ready(Load(l, addr, dev).(db := v))
  {
  }

  /** The first two cycles of the modification, whatever the address. */
  lemma WritesBack(l: Core, d: Core, from: AddressSource, to: Target, addr: word, cb: Callback, pre: bool, vec: word,
                   cfg: Config, dev: Device)
    returns (h: Core)
    requires Ready(l) && Agree(l, d) && AddressOf(l, from, vec) == Some(addr) && !from.IrqVec?
    requires TargetAddress(l, to) == addr && BusTarget(to) && ModifyCallback(cb)
    ensures Leads(Work(l, Modifications(from, to, cb, pre)), 2, Work(h, [WriteNew(to, pre)]), vec, cfg, dev)
    ensures AboutToWrite(h, to, addr, WrittenBackCore(d, addr, cb, dev))
  {
    hide Leads, Exec, Agree, Store, Alu, ModifyCallback, AddressOf, TargetAddress, Ordinary, BusTarget, Load,
      LoadValue, ReadTo, WriteOld, WriteNew, Look, Answer, Ready, AboutToWrite, WrittenBackCore;
    var o1, o2, o3 := ReadTo(from, Target.DataBus), WriteOld(to, cb), WriteNew(to, pre);
    OrdinaryModify(from, to, cb, pre);
    var v := LoadValue(l, addr, dev);
    AgreeLoaded(l, d, d.log, addr, dev);
    var m1 := Load(l, addr, dev).(db := v);
    DbAgrees(Load(l, addr, dev), d.(log := Look(d.log, addr, dev)), v);
    DoReadLatch(l, from, addr, vec, cfg, dev);
    ReadyLoad(l, addr, v, dev);
    SameTarget(l, m1, to);
    var d1 := d.(log := Look(d.log, addr, dev), db := v);
    h := WritesOld(m1, d1, to, addr, cb, vec, cfg, dev);
    assert WrittenBackCore(d, addr, cb, dev) == Alu(Store(d1, addr, v), cb) by { WrittenBackIs(d, addr, cb, dev); }
    LeadsOne(l, o1, m1, [o1, o2, o3], [o2, o3], vec, cfg, dev);
    Then(Work(l, [o1, o2, o3]), 1, m1, [o2, o3], o2, h, [o3], vec, cfg, dev);
  }

  lemma WrittenBackIs(d: Core, addr: word, cb: Callback, dev: Device)
    ensures var v := Answer(d.log, addr, dev);
      WrittenBackCore(d, addr, cb, dev) == Alu(Store(d.(log := Look(d.log, addr, dev), db := v), addr, v), cb)
  {
    hide Look, Answer, Alu, Store;
  }

  lemma WritesOld(c: Core, d: Core, to: Target, addr: word, cb: Callback, vec: word, cfg: Config, dev: Device) returns (h: Core)
    requires Ready(c) && Agree(c, d) && c.db == d.db && TargetAddress(c, to) == addr && BusTarget(to) && ModifyCallback(cb)
    ensures Exec(c, WriteOld(to, cb), vec, cfg, dev) == Effect(h, [])
    ensures AboutToWrite(h, to, addr, Alu(Store(d, addr, d.db), cb))
  {
    hide Exec, Agree, Store, Alu, ModifyCallback, TargetAddress, BusTarget, WriteOld;
    DoWriteOld(c, to, cb, vec, cfg, dev);
    ModifiedAgrees(c, d, addr, c.db, cb);
    h := Alu(Store(c, addr, c.db), cb);
    SameTarget(c, h, to);
  }

  /** A read-modify-write without an index carry, up to its last write. */
  lemma ModifiesPlain(c: Core, op: OpType, mode: Mode, cb: Callback, pre: bool, vec: word, cfg: Config, dev: Device)
    returns (h: Core)
    requires Ready(c) && op == Decode(LoadValue(c, c.pc, dev)) && Proper(mode) && !InstructionSet.IsIndexed(mode)
    requires ModifyCallback(cb) && OperandBytes(op) == OperandLength(mode)
    requires Program(op) == Finding(mode, Modifying) + Modifications(OperandSource(mode, false), OperandTarget(mode), cb, pre)
    ensures Leads(Fetching(c), ModifyInstruction(c, op, mode, cb, dev).cycles - 1, Work(h, [WriteNew(OperandTarget(mode), pre)]),
                  vec, cfg, dev)
    ensures AboutToWrite(h, OperandTarget(mode), Resolve(c, mode, false, dev).addr, WrittenBack(c, op, mode, cb, dev))
  {
    hide Decode, LoadValue, Program, Leads, Finding, Located, OpcodeFetched, Ready, Exec, Resolve, Agree, Alu, Behind,
      Ordinary, OperandSource, AddressOf, Proper, Store, OperandTarget, TargetAddress, BusTarget, Modifications,
      ModifyCallback, Look, WrittenBack, WrittenBackCore, ModifyInstruction, AboutToWrite, WriteNew;
    var from, to := OperandSource(mode, false), OperandTarget(mode);
    var rest := Modifications(from, to, cb, pre);
    var l := Located(OpcodeFetched(c, op, dev), mode, false, dev);
    var o := Resolve(c, mode, false, dev);
    BeginsFinding(c, op, mode, Modifying, rest, vec, cfg, dev);
    LocatesPlain(c, op, mode, false, dev);
    SameAddress(l, mode, false, vec);
    TargetsOperand(l, mode, o.addr);
    PlainSource(mode);
    h := WritesBack(l, Begun(c, op, o.log), from, to, o.addr, cb, pre, vec, cfg, dev);
    LeadsOn(Fetching(c), ResolveCycles(mode), Work(l, rest), 2, Work(h, [WriteNew(to, pre)]), vec, cfg, dev);
    ModifiedIs(c, op, mode, o.log, cb, dev);
  }

  lemma PlainSource(mode: Mode)
    ensures !OperandSource(mode, false).IrqVec?
  {
  }

  lemma ModifiedIs(c: Core, op: OpType, mode: Mode, log: seq<Access>, cb: Callback, dev: Device)
    requires var o := Resolve(c, mode, false, dev);
      log == if InstructionSet.IsIndexed(mode) then Look(o.log, o.unfixed, dev) else o.log
    ensures WrittenBack(c, op, mode, cb, dev) == WrittenBackCore(Begun(c, op, log), Resolve(c, mode, false, dev).addr, cb, dev)
    ensures ModifyInstruction(c, op, mode, cb, dev).cycles
         == ResolveCycles(mode) + 3 + if InstructionSet.IsIndexed(mode) then 1 else 0
  {
    hide Resolve, Alu, Store, Behind, Look, Answer;
  }

  /** An indexed read-modify-write up to its last write: it reads once at the unfixed address first. */
  lemma ModifiesIndexed(c: Core, op: OpType, mode: Mode, index: Source, cb: Callback, vec: word, cfg: Config, dev: Device)
    returns (h: Core)
    requires Ready(c) && op == Decode(LoadValue(c, c.pc, dev)) && IndexRegister(index)
    requires mode == AbsIndexedMode(index) || (mode == IndirectIndexedMode && index == Source.Y)
    requires ModifyCallback(cb) && OperandBytes(op) == OperandLength(mode)
    requires Program(op) == Finding(mode, Modifying)
               + ([ReadPageCrossAware(index, Target.DataBus, false, NoOp)] + Modifications(Latch, Target.AddressLatch, cb, true))
    ensures Leads(Fetching(c), ModifyInstruction(c, op, mode, cb, dev).cycles - 1, Work(h, [WriteNew(Target.AddressLatch, true)]),
                  vec, cfg, dev)
    ensures AboutToWrite(h, Target.AddressLatch, Resolve(c, mode, false, dev).addr, WrittenBack(c, op, mode, cb, dev))
  {
    hide Decode, LoadValue, Program, Leads, Finding, Located, OpcodeFetched, Ready, Exec, Resolve, Agree, Alu, Behind,
      Proper, Store, TargetAddress, LatchesIndexed, IndexValue, Pair, IndexRegister, Modifications, ModifyCallback,
      Look, AddressOf, ModifyInstruction, WrittenBack, WrittenBackCore, AboutToWrite, WriteNew;
    var rest := Modifications(Latch, Target.AddressLatch, cb, true);
    var o := Resolve(c, mode, false, dev);
    var e := BeginsFixed(c, op, mode, index, Target.DataBus, Modifying, rest, vec, cfg, dev);
    var log := Look(o.log, o.unfixed, dev);
    TargetsOperand(e, mode, o.addr);
    SameAddress(e, mode, false, vec);
    h := WritesBack(e, Begun(c, op, log), Latch, Target.AddressLatch, o.addr, cb, true, vec, cfg, dev);
    LeadsOn(Fetching(c), ResolveCycles(mode) + 1, Work(e, rest), 2, Work(h, [WriteNew(Target.AddressLatch, true)]), vec, cfg, dev);
    ModifiedIs(c, op, mode, log, cb, dev);
  }

  /** The last write of a read-modify-write, unless it is held up by a DMA. */
  lemma WritesNew(w: Work, k: nat, h: Core, to: Target, pre: bool, addr: word, m: Core, vec: word, cfg: Config, dev: Device)
    returns (r: Core)
    requires Leads(w, k, Work(h, [WriteNew(to, pre)]), vec, cfg, dev)
    requires AboutToWrite(h, to, addr, m) && addr != DMA_ADDRESS
    ensures Leads(w, k + 1, Work(r, []), vec, cfg, dev) && Agree(r, Store(m, addr, m.db))
  {
    hide Leads, Exec, Agree, Store, TargetAddress, Ordinary, BusTarget, WriteNew;
    DoWriteNew(h, to, pre, vec, cfg, dev);
    StoreAgrees(h, m, addr, m.db);
    OrdinaryWrite(to, pre);
    r := Store(h, addr, m.db);
    Then(w, k, h, [WriteNew(to, pre)], WriteNew(to, pre), r, [], vec, cfg, dev);
  }

  lemma OrdinaryWrite(to: Target, pre: bool)
    ensures Ordinary(WriteNew(to, pre))
  {
  }
}
