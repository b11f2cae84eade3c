/** Running the scheduled micro-operations of one instruction, apart from everything that happens between cycles. */
module CpuFlow {
  import opened Bits
  import opened CpuTypes
  import opened CpuAlu
  import opened CpuCallbacks
  import opened CpuExec
  import opened InstructionSet
  import opened Opcodes

  /** Registers, and the micro-operations still to run. */
  datatype Work = Work(core: Core, todo: seq<MicroOp>)

  /** The interrupt vector plays no part: only the last two reads of BRK go through it. */
  predicate Ordinary(op: MicroOp) {
    match op
    case Read(from, _, _) => !from.IrqVec?
    case DummyReadAdd(from, _, _, _) => !from.IrqVec?
    case ReadZeroPage(from, _, _, _, _, _, _, _) => !from.IrqVec?
    case ReadAbsolute(from, _, _, _, _, _, _, _) => !from.IrqVec?
    case _ => true
  }

  predicate Ready(c: Core) {
    !c.rdy && !c.halted
  }

  /** `k` micro-operations lead from `w` to `r`, without asking for a DMA or halting before the last. */
  ghost predicate Leads(w: Work, k: nat, r: Work, vec: word, cfg: Config, dev: Device)
    decreases k
  {
    if k == 0 then w == r
    else
      && w.todo != [] && Ordinary(w.todo[0]) && Ready(w.core)
      && var e := Exec(w.core, w.todo[0], vec, cfg, dev);
      Leads(Work(e.core, w.todo[1..] + e.push), k - 1, r, vec, cfg, dev)
  }

  lemma {:induction false} LeadsOn(w: Work, a: nat, m: Work, b: nat, r: Work, vec: word, cfg: Config, dev: Device)
    requires Leads(w, a, m, vec, cfg, dev) && Leads(m, b, r, vec, cfg, dev)
    ensures Leads(w, a + b, r, vec, cfg, dev)
    decreases a
  {
    hide Exec, Ordinary, Ready;
    if a > 0 {
      var e := Exec(w.core, w.todo[0], vec, cfg, dev);
      LeadsOn(Work(e.core, w.todo[1..] + e.push), a - 1, m, b, r, vec, cfg, dev);
    }
  }

  /** One micro-operation that schedules nothing. */
  lemma LeadsOne(c: Core, op: MicroOp, d: Core, todo: seq<MicroOp>, rest: seq<MicroOp>, vec: word, cfg: Config, dev: Device)
    requires todo == [op] + rest && Ordinary(op) && Ready(c)
    requires Exec(c, op, vec, cfg, dev) == Effect(d, [])
    ensures Leads(Work(c, todo), 1, Work(d, rest), vec, cfg, dev)
  {
    hide Exec, Ordinary, Ready;
    assert todo[1..] + [] == rest;
    assert Leads(Work(d, rest), 0, Work(d, rest), vec, cfg, dev);
  }

  /** A last micro-operation that schedules `push`. */
  lemma LeadsPush(c: Core, op: MicroOp, d: Core, push: seq<MicroOp>, vec: word, cfg: Config, dev: Device)
    requires Ordinary(op) && Ready(c)
    requires Exec(c, op, vec, cfg, dev) == Effect(d, push)
    ensures Leads(Work(c, [op]), 1, Work(d, push), vec, cfg, dev)
  {
    hide Exec, Ordinary, Ready;
    assert [op][1..] + push == push;
    assert Leads(Work(d, push), 0, Work(d, push), vec, cfg, dev);
  }

  // --- dispatch, with all executors but one out of sight

  lemma IsRead(c: Core, from: AddressSource, to: Target, cb: Callback, vec: word, cfg: Config, dev: Device)
    ensures Exec(c, MicroOp.Read(from, to, cb), vec, cfg, dev) == ExecRead(c, from, to, cb, vec, dev)
  {
    hide ExecFetchOpcode, ExecFetchLo, ExecFetchHi, ExecRead, ExecWrite, ExecPush, ExecPop, ExecPeek, ExecPageCross,
      ExecCorrupting, ExecDummyAdd, ExecDummy, ExecZeroPage, ExecAbsolute, ExecBranch, ExecFixHi;
  }

  lemma IsZeroPage(c: Core, from: AddressSource, offset: Source, to: Target, addTo: Source, add: Source, save: Target,
                   incPc: bool, cb: Callback, vec: word, cfg: Config, dev: Device)
    ensures Exec(c, ReadZeroPage(from, offset, to, addTo, add, save, incPc, cb), vec, cfg, dev)
         == ExecZeroPage(c, from, offset, to, addTo, add, save, incPc, cb, vec, dev)
  {
    hide ExecFetchOpcode, ExecFetchLo, ExecFetchHi, ExecRead, ExecWrite, ExecPush, ExecPop, ExecPeek, ExecPageCross,
      ExecCorrupting, ExecDummyAdd, ExecDummy, ExecZeroPage, ExecAbsolute, ExecBranch, ExecFixHi;
  }

  lemma IsAbsolute(c: Core, from: AddressSource, offset: Source, to: Target, addTo: Source, add: Source, save: Target,
                   incPc: bool, cb: Callback, vec: word, cfg: Config, dev: Device)
    ensures Exec(c, ReadAbsolute(from, offset, to, addTo, add, save, incPc, cb), vec, cfg, dev)
         == ExecAbsolute(c, from, offset, to, addTo, add, save, incPc, cb, vec, dev)
  {
    hide ExecFetchOpcode, ExecFetchLo, ExecFetchHi, ExecRead, ExecWrite, ExecPush, ExecPop, ExecPeek, ExecPageCross,
      ExecCorrupting, ExecDummyAdd, ExecDummy, ExecZeroPage, ExecAbsolute, ExecBranch, ExecFixHi;
  }

  lemma IsWrite(c: Core, to: Target, src: Source, pre: bool, cb: Callback, vec: word, cfg: Config, dev: Device)
    ensures Exec(c, MicroOp.Write(to, src, pre, cb), vec, cfg, dev) == ExecWrite(c, to, src, pre, cb)
  {
    hide ExecFetchOpcode, ExecFetchLo, ExecFetchHi, ExecRead, ExecWrite, ExecPush, ExecPop, ExecPeek, ExecPageCross,
      ExecCorrupting, ExecDummyAdd, ExecDummy, ExecZeroPage, ExecAbsolute, ExecBranch, ExecFixHi;
  }

  lemma IsStack(c: Core, to: Target, src: Source, cb: Callback, vec: word, cfg: Config, dev: Device)
    ensures Exec(c, StackPush(src, cb), vec, cfg, dev) == ExecPush(c, src, cb)
    ensures Exec(c, StackPop(to, cb), vec, cfg, dev) == ExecPop(c, to, cb, dev)
    ensures Exec(c, StackPeek(to, cb), vec, cfg, dev) == ExecPeek(c, to, cb, dev)
  {
    hide ExecFetchOpcode, ExecFetchLo, ExecFetchHi, ExecRead, ExecWrite, ExecPush, ExecPop, ExecPeek, ExecPageCross,
      ExecCorrupting, ExecDummyAdd, ExecDummy, ExecZeroPage, ExecAbsolute, ExecBranch, ExecFixHi;
  }

  lemma IsFetch(c: Core, cb: Callback, vec: word, cfg: Config, dev: Device)
    ensures Exec(c, FetchOpcode, vec, cfg, dev) == ExecFetchOpcode(c, dev)
    ensures Exec(c, FetchOperandLo(cb), vec, cfg, dev) == ExecFetchLo(c, cb, dev)
    ensures Exec(c, FetchOperandHi(cb), vec, cfg, dev) == ExecFetchHi(c, cb, dev)
    ensures Exec(c, DummyRead(cb), vec, cfg, dev) == ExecDummy(c, cb, dev)
  {
    hide ExecFetchOpcode, ExecFetchLo, ExecFetchHi, ExecRead, ExecWrite, ExecPush, ExecPop, ExecPeek, ExecPageCross,
      ExecCorrupting, ExecDummyAdd, ExecDummy, ExecZeroPage, ExecAbsolute, ExecBranch, ExecFixHi;
  }

  lemma IsIndexed(c: Core, from: AddressSource, index: Source, to: Target, schedule: bool, cb: Callback, vec: word,
                  cfg: Config, dev: Device)
    ensures Exec(c, ReadPageCrossAware(index, to, schedule, cb), vec, cfg, dev) == ExecPageCross(c, index, to, schedule, cb, dev)
    ensures Exec(c, DummyReadAdd(from, index, to, cb), vec, cfg, dev) == ExecDummyAdd(c, from, index, to, cb, vec, dev)
  {
    hide ExecFetchOpcode, ExecFetchLo, ExecFetchHi, ExecRead, ExecWrite, ExecPush, ExecPop, ExecPeek, ExecPageCross,
      ExecCorrupting, ExecDummyAdd, ExecDummy, ExecZeroPage, ExecAbsolute, ExecBranch, ExecFixHi;
  }

  lemma IsBranch(c: Core, src: Source, pc: word, vec: word, cfg: Config, dev: Device)
    ensures Exec(c, BranchIncrement(src), vec, cfg, dev) == ExecBranch(c, src, dev)
    ensures Exec(c, FixHiBranch(pc), vec, cfg, dev) == ExecFixHi(c, pc, dev)
  {
    hide ExecFetchOpcode, ExecFetchLo, ExecFetchHi, ExecRead, ExecWrite, ExecPush, ExecPop, ExecPeek, ExecPageCross,
      ExecCorrupting, ExecDummyAdd, ExecDummy, ExecZeroPage, ExecAbsolute, ExecBranch, ExecFixHi;
  }

  // --- the effect of single micro-operations

  lemma NoCall(c: Core)
    ensures Called(c, NoOp) == Effect(c, [])
  {
  }

  lemma SmallSums(w: word, b: byte)
    ensures AddLow(w, 0) == w && Plus8(b, 0) == b && Low(ZeroPage(b)) == b
    ensures AddLow(ZeroPage(b), 1) == ZeroPage(Plus8(b, 1))
  {
  }

  function LoFetched(c: Core, dev: Device): Core {
    Load(c, c.pc, dev).(lo := LoadValue(c, c.pc, dev), pc := Next(c.pc))
  }

  function HiFetched(c: Core, dev: Device): Core {
    Load(c, c.pc, dev).(hi := LoadValue(c, c.pc, dev), pc := Next(c.pc))
  }

  lemma DoFetch(c: Core, vec: word, cfg: Config, dev: Device)
    ensures Exec(c, FetchLo(), vec, cfg, dev) == Effect(LoFetched(c, dev), [])
    ensures Exec(c, FetchHi(), vec, cfg, dev) == Effect(HiFetched(c, dev), [])
  {
    hide Called, LoadValue, Next, Load, Exec;
    IsFetch(c, NoOp, vec, cfg, dev);
    NoCall(LoFetched(c, dev));
    NoCall(HiFetched(c, dev));
  }

  lemma ValueOfIndex(c: Core, index: Source)
    requires IndexRegister(index)
    ensures ValueOf(c, index) == Some(IndexValue(c, index))
  {
  }

  /** The plain registers are written without touching the bus or the status. */
  lemma PlainTargets(c: Core, v: byte)
    ensures WriteTarget(c, Target.LO, v) == c.(lo := v)
    ensures WriteTarget(c, Target.HI, v) == c.(hi := v)
    ensures WriteTarget(c, Target.DataBus, v) == c.(db := v)
    ensures WriteTarget(c, Target.Nowhere, v) == c
  {
  }

  lemma DoHiAddIndex(c: Core, index: Source, vec: word, cfg: Config, dev: Device)
    requires IndexRegister(index)
    ensures Exec(c, FetchHiAddIndex(index, NoOp), vec, cfg, dev)
         == Effect(HiFetched(c, dev).(lo := Plus8(c.lo, IndexValue(c, index))), [])
  {
    hide Called, LoadValue, Next, Plus8, WriteTarget, AddLow, Exec;
    IsAbsolute(c, AddressSource.PC, Zero, Target.HI, Source.LO, index, Target.LO, true, NoOp, vec, cfg, dev);
    SmallSums(c.pc, 0);
    var l := Load(c, c.pc, dev);
    PlainTargets(l, LoadValue(c, c.pc, dev));
    var h := l.(hi := LoadValue(c, c.pc, dev));
    ValueOfIndex(h, index);
    PlainTargets(h, Plus8(h.lo, IndexValue(h, index)));
    NoCall(HiFetched(c, dev).(lo := Plus8(c.lo, IndexValue(c, index))));
  }

  lemma DoReadLatch(c: Core, from: AddressSource, addr: word, vec: word, cfg: Config, dev: Device)
    requires AddressOf(c, from, vec) == Some(addr)
    ensures Exec(c, ReadTo(from, Target.LO), vec, cfg, dev) == Effect(Load(c, addr, dev).(lo := LoadValue(c, addr, dev)), [])
    ensures Exec(c, ReadTo(from, Target.DataBus), vec, cfg, dev) == Effect(Load(c, addr, dev).(db := LoadValue(c, addr, dev)), [])
  {
    hide Called, LoadValue, WriteTarget, AddressOf, Exec;
    var l, v := Load(c, addr, dev), LoadValue(c, addr, dev);
    IsRead(c, from, Target.LO, NoOp, vec, cfg, dev);
    IsRead(c, from, Target.DataBus, NoOp, vec, cfg, dev);
    PlainTargets(l, v);
    NoCall(l.(lo := v));
    NoCall(l.(db := v));
  }

  lemma DoDummyAdd(c: Core, index: Source, vec: word, cfg: Config, dev: Device)
    requires IndexRegister(index)
    ensures Exec(c, DummyReadAdd(AddressSource.LO, index, Target.DataBus, NoOp), vec, cfg, dev)
         == Effect(Load(c, ZeroPage(c.lo), dev).(db := Plus8(c.lo, IndexValue(c, index))), [])
  {
    hide Called, LoadValue, WriteTarget, ZeroPage, Plus8, Low, Exec;
    IsIndexed(c, AddressSource.LO, index, Target.DataBus, false, NoOp, vec, cfg, dev);
    SmallSums(0, c.lo);
    var l := Load(c, ZeroPage(c.lo), dev);
    ValueOfIndex(l, index);
    var v := Plus8(c.lo, IndexValue(c, index));
    PlainTargets(l, v);
    NoCall(l.(db := v));
  }

  lemma DoAddX(c: Core, vec: word, cfg: Config, dev: Device)
    ensures Exec(c, AddXToPointer(), vec, cfg, dev)
         == Effect(Load(c, ZeroPage(c.lo), dev).(db := Plus8(c.lo, c.x)), [])
  {
    hide Called, LoadValue, WriteTarget, ZeroPage, Plus8, Low, Exec;
    IsZeroPage(c, AddressSource.LO, Zero, Target.Nowhere, Source.LO, Source.X, Target.DataBus, false, NoOp, vec, cfg, dev);
    SmallSums(0, c.lo);
    var l := Load(c, ZeroPage(c.lo), dev);
    PlainTargets(l, LoadValue(c, ZeroPage(c.lo), dev));
    PlainTargets(l, Plus8(c.lo, c.x));
    NoCall(l.(db := Plus8(c.lo, c.x)));
  }

  lemma DoPointerLoFrom(c: Core, vec: word, cfg: Config, dev: Device)
    ensures Exec(c, PointerLoFrom(NoOp), vec, cfg, dev)
         == Effect(Load(c, ZeroPage(c.lo), dev).(db := LoadValue(c, ZeroPage(c.lo), dev)), [])
  {
    hide Called, LoadValue, WriteTarget, ZeroPage, Plus8, Low, Exec;
    IsZeroPage(c, AddressSource.LO, Zero, Target.DataBus, Source.Absent, Source.Absent, Target.Nowhere, false, NoOp, vec, cfg, dev);
    SmallSums(0, c.lo);
    var l, v := Load(c, ZeroPage(c.lo), dev), LoadValue(c, ZeroPage(c.lo), dev);
    PlainTargets(l, v);
    NoCall(l.(db := v));
  }

  lemma DoPointerHi(c: Core, vec: word, cfg: Config, dev: Device)
    ensures var a := ZeroPage(Plus8(c.db, 1));
      var d := Load(c, a, dev).(hi := LoadValue(c, a, dev));
      Exec(c, PointerHi(), vec, cfg, dev) == Effect(d, []) && Exec(c, PointerHiAbsolute(), vec, cfg, dev) == Effect(d, [])
  {
    hide Called, LoadValue, WriteTarget, ZeroPage, Plus8, Low, AddLow, Exec;
    IsZeroPage(c, AddressSource.Temp, One, Target.HI, Source.Absent, Source.Absent, Target.Nowhere, false, NoOp, vec, cfg, dev);
    IsAbsolute(c, AddressSource.Temp, One, Target.HI, Source.Absent, Source.Absent, Target.Nowhere, false, NoOp, vec, cfg, dev);
    SmallSums(0, c.db);
    var a := ZeroPage(Plus8(c.db, 1));
    var l, v := Load(c, a, dev), LoadValue(c, a, dev);
    PlainTargets(l, v);
    NoCall(l.(hi := v));
  }

  lemma DoPointerHiAddY(c: Core, vec: word, cfg: Config, dev: Device)
    ensures var a := ZeroPage(Plus8(c.lo, 1));
      Exec(c, PointerHiAddY(NoOp), vec, cfg, dev)
         == Effect(Load(c, a, dev).(hi := LoadValue(c, a, dev), lo := Plus8(c.db, c.y)), [])
  {
    hide Called, LoadValue, WriteTarget, ZeroPage, Plus8, Low, Exec;
    IsZeroPage(c, AddressSource.LO, One, Target.HI, Source.DataBus, Source.Y, Target.LO, false, NoOp, vec, cfg, dev);
    SmallSums(0, c.lo);
    var a := ZeroPage(Plus8(c.lo, 1));
    var l, v := Load(c, a, dev), LoadValue(c, a, dev);
    PlainTargets(l, v);
    var h := l.(hi := v);
    PlainTargets(h, Plus8(h.db, h.y));
    NoCall(h.(lo := Plus8(h.db, h.y)));
  }

  lemma DoAddIndexToLo(c: Core, index: Source, vec: word, cfg: Config, dev: Device)
    requires IndexRegister(index)
    ensures Exec(c, AddIndexToLo(index), vec, cfg, dev) == Effect(c.(lo := Plus8(c.lo, IndexValue(c, index))), [])
  {
    hide Called, WriteTarget, Plus8, Exec;
    IsZeroPage(c, AddressSource.Absent, Source.Absent, Target.Nowhere, Source.LO, index, Target.LO, false, NoOp, vec, cfg, dev);
    ValueOfIndex(c, index);
    var v := Plus8(c.lo, IndexValue(c, index));
    PlainTargets(c, v);
    NoCall(c.(lo := v));
  }

  // --- the last micro-operations of an instruction

  /** A register load and what its callback makes of it. */
  function Finished(c: Core, addr: word, target: Target, cb: Callback, dev: Device): Core {
    Called(WriteRegister(Load(c, addr, dev), target, LoadValue(c, addr, dev)), cb).core
  }

  lemma NoBranch(c: Core, cb: Callback)
    requires !cb.BRANCH?
    ensures Called(c, cb) == Effect(Called(c, cb).core, [])
  {
    hide Alu;
  }

  lemma DoFinalRead(c: Core, from: AddressSource, addr: word, target: Target, cb: Callback, vec: word, cfg: Config, dev: Device)
    requires AddressOf(c, from, vec) == Some(addr) && ReadTarget(target) && !cb.BRANCH?
    ensures Exec(c, MicroOp.Read(from, target, cb), vec, cfg, dev) == Effect(Finished(c, addr, target, cb, dev), [])
  {
    hide Called, LoadValue, WriteRegister, AddressOf, Exec, Load;
    IsRead(c, from, target, cb, vec, cfg, dev);
    NoBranch(WriteRegister(Load(c, addr, dev), target, LoadValue(c, addr, dev)), cb);
  }

  /** The index register survives the load, and so does the low byte. */
  lemma LoadIndependent(c: Core, index: Source, target: Target, v: byte)
    requires Independent(index, target)
    ensures var l := WriteRegister(c, target, v);
      && ValueOf(l, index) == Some(IndexValue(c, index)) && l.lo == c.lo && l.hi == c.hi
      && !BusTarget(target)
  {
    hide TargetStatus, TargetPc;
  }

  lemma PageCrossForm(c: Core, l: Core, i: byte, index: Source, target: Target, schedule: bool, cb: Callback, dev: Device)
    requires l == LoadTo(c, Pair(c.hi, c.lo), target, dev) && ValueOf(l, index) == Some(i)
    ensures ExecPageCross(c, index, target, schedule, cb, dev)
         == if Borrows(l.lo, i) then Effect(l.(hi := l.hi + 1), if schedule then [MicroOp.Read(Latch, target, cb)] else [])
            else Called(l, cb)
  {
    hide Called, LoadTo, Pair, Borrows, ValueOf;
  }

  lemma DoPageCross(c: Core, index: Source, target: Target, schedule: bool, cb: Callback, vec: word, cfg: Config, dev: Device)
    requires Independent(index, target) && !cb.BRANCH?
    ensures var a := Pair(c.hi, c.lo);
      Exec(c, ReadPageCrossAware(index, target, schedule, cb), vec, cfg, dev)
         == if Borrows(c.lo, IndexValue(c, index)) then
              Effect(WriteRegister(Load(c, a, dev), target, LoadValue(c, a, dev)).(hi := c.hi + 1),
                     if schedule then [MicroOp.Read(Latch, target, cb)] else [])
            else Effect(Finished(c, a, target, cb, dev), [])
  {
    hide Called, LoadValue, WriteRegister, Pair, Exec, Borrows, ValueOf, ExecPageCross, IndexValue;
    var a := Pair(c.hi, c.lo);
    IsIndexed(c, Latch, index, target, schedule, cb, vec, cfg, dev);
    var l := Load(c, a, dev);
    assert IndexValue(l, index) == IndexValue(c, index) by { SameIndex(c, l, index); }
    LoadIndependent(l, index, target, LoadValue(c, a, dev));
    var r := WriteRegister(l, target, LoadValue(c, a, dev));
    assert LoadTo(c, a, target, dev) == r;
    PageCrossForm(c, r, IndexValue(c, index), index, target, schedule, cb, dev);
    NoBranch(r, cb);
    hide LoadTo, Load, Independent;
  }

  lemma SameIndex(c: Core, l: Core, index: Source)
    requires l.x == c.x && l.y == c.y
    ensures IndexValue(l, index) == IndexValue(c, index)
  {
  }

  lemma DoFinalWrite(c: Core, to: Target, src: Source, cb: Callback, vec: word, cfg: Config, dev: Device)
    requires BusTarget(to) && StoreEntry(src, cb)
    ensures Exec(c, MicroOp.Write(to, src, true, cb), vec, cfg, dev)
         == Effect(Store(if cb.SAX? then c.(db := And(c.a, c.x)) else c, TargetAddress(c, to), StoredByte(c, src, cb)), [])
  {
    hide Store, Exec, And, Called;
    IsWrite(c, to, src, true, cb, vec, cfg, dev);
    CalledSax(c);
    NoCall(c);
  }

  lemma CalledSax(c: Core)
    ensures Called(c, Callback.SAX) == Effect(c.(db := And(c.a, c.x)), [])
  {
    hide Alu, And;
    SaxIs(c);
  }

  /** The first write of a read-modify-write: the byte as it was read, then the operation on the latch. */
  lemma DoWriteOld(c: Core, to: Target, cb: Callback, vec: word, cfg: Config, dev: Device)
    requires BusTarget(to) && ModifyCallback(cb)
    ensures Exec(c, WriteOld(to, cb), vec, cfg, dev) == Effect(Alu(Store(c, TargetAddress(c, to), c.db), cb), [])
  {
    hide Store, Exec, Called, TargetAddress, ModifyCallback, Alu;
    IsWrite(c, to, Source.DataBus, false, cb, vec, cfg, dev);
    ModifyCall(Store(c, TargetAddress(c, to), c.db), cb);
  }

  lemma ModifyCall(c: Core, cb: Callback)
    requires ModifyCallback(cb)
    ensures Called(c, cb) == Effect(Alu(c, cb), [])
  {
    hide Alu, ModifyCallback, Touches;
    ModifyTouches(cb);
  }

  lemma ModifyTouches(cb: Callback)
    requires ModifyCallback(cb)
    ensures !cb.BRANCH? && Touches(cb)
  {
  }

  lemma DoWriteNew(c: Core, to: Target, pre: bool, vec: word, cfg: Config, dev: Device)
    requires BusTarget(to)
    ensures Exec(c, WriteNew(to, pre), vec, cfg, dev) == Effect(Store(c, TargetAddress(c, to), c.db), [])
  {
    hide Store, Exec, Called, TargetAddress;
    IsWrite(c, to, Source.DataBus, pre, NoOp, vec, cfg, dev);
    NoCall(c);
    NoCall(Store(c, TargetAddress(c, to), c.db));
  }

  /** One more micro-operation, which schedules nothing. */
  lemma Then(w: Work, k: nat, c: Core, todo: seq<MicroOp>, op: MicroOp, d: Core, rest: seq<MicroOp>, vec: word, cfg: Config, dev: Device)
    requires Leads(w, k, Work(c, todo), vec, cfg, dev)
    requires todo == [op] + rest && Ordinary(op) && Ready(c)
    requires Exec(c, op, vec, cfg, dev) == Effect(d, [])
    ensures Leads(w, k + 1, Work(d, rest), vec, cfg, dev)
  {
    hide Exec, Ordinary, Ready;
    LeadsOne(c, op, d, todo, rest, vec, cfg, dev);
    LeadsOn(w, k, Work(c, todo), 1, Work(d, rest), vec, cfg, dev);
  }

}
