/** The stores of the CPU to the frame counter at $4017: how far apart they are in any run. */
module CpuApu {
  import opened Bits
  import opened CpuTypes
  import opened CpuAlu
  import opened CpuExec
  import opened CpuMachine
  import opened CpuSafety
  import opened CpuRuns
  import opened Opcodes
  import Apu = ApuFrameCounter

  const FRAME_COUNTER: word := 0x4017

  // --- what the frame counter hears

  predicate Hits(a: Access) {
    a.Stored? && a.addr == FRAME_COUNTER
  }

  /** The writes to the frame counter among some accesses. */
  function Writes(log: seq<Access>): seq<Apu.Event> {
    if log == [] then []
    else
      var a := log[|log| - 1];
      Writes(log[..|log| - 1]) + if Hits(a) then [Apu.Event.Write(Flag(a.data, 0x80), Flag(a.data, 0x40))] else []
  }

  /** The accesses made between two states. */
  function Added(m: Core, n: Core): seq<Access> {
    if |m.log| <= |n.log| then n.log[|m.log|..] else []
  }

  /** The frame counter is clocked in every CPU cycle, behind the store of that cycle; a reset does not clock it. */
  function Heard(run: seq<Machine>, events: seq<Event>, i: nat): seq<Apu.Event>
    requires i <= |events| < |run|
  {
    if i == 0 then []
    else
      Heard(run, events, i - 1) + if events[i - 1].Clock? then Writes(Added(run[i - 1].core, run[i].core)) + [Apu.Tick] else []
  }

  // --- micro-operations that cannot store there

  predicate HasTarget(op: MicroOp) {
    || op.Read? || op.StackPop? || op.StackPeek? || op.ReadPageCrossAware? || op.DummyReadAdd? || op.ReadZeroPage?
    || op.ReadAbsolute?
  }

  predicate Silent(op: MicroOp) {
    && !op.Write?
    && (HasTarget(op) ==> !BusTarget(op.to))
    && (op.ReadZeroPage? || op.ReadAbsolute? ==> !BusTarget(op.save))
  }

  /** One more access at most, which is no store to the frame counter unless `loud`. */
  predicate Adds(c: Core, d: Core, loud: bool) {
    || d.log == c.log
    || (|d.log| == |c.log| + 1 && d.log[..|c.log|] == c.log && (loud || !Hits(d.log[|c.log|])))
  }

  predicate Discreet(c: Core, e: Effect) {
    Adds(c, e.core, false) && forall i {:trigger e.push[i]} :: 0 <= i < |e.push| ==> Silent(e.push[i])
  }

  lemma CalledLog(c: Core, cb: Callback)
    ensures Called(c, cb).core.log == c.log
    ensures forall i {:trigger Called(c, cb).push[i]} :: 0 <= i < |Called(c, cb).push| ==> Silent(Called(c, cb).push[i])
  {
    hide AluA, AluX, AluY, AluSp, AluP, AluDb, AluHi, Holds;
  }

  lemma CalledDiscreet(c: Core, d: Core, cb: Callback)
    requires Adds(c, d, false)
    ensures Discreet(c, Called(d, cb))
  {
    hide Called, Hits;
    CalledLog(d, cb);
  }

  lemma LoadAdds(c: Core, addr: word, dev: Device)
    ensures Adds(c, Load(c, addr, dev), false)
  {
    hide LoadValue;
  }

  lemma LoadToAdds(c: Core, addr: word, to: Target, dev: Device)
    requires !BusTarget(to)
    ensures Adds(c, LoadTo(c, addr, to, dev), false)
  {
    hide LoadValue, TargetStatus, TargetPc;
  }

  lemma SilentTarget(c: Core, to: Target, v: byte)
    requires !BusTarget(to)
    ensures WriteTarget(c, to, v).log == c.log
  {
    hide TargetStatus, TargetPc;
  }

  lemma AddToLog(c: Core, addTo: Source, add: Source, save: Target)
    requires !BusTarget(save)
    ensures AddTo(c, addTo, add, save).log == c.log
  {
    hide WriteTarget, Plus8, ValueOf;
    match (ValueOf(c, addTo), ValueOf(c, add)) {
      case (Some(a), Some(b)) => SilentTarget(c, save, Plus8(a, b));
      case _ =>
    }
  }

  lemma StackIsElsewhere(sp: byte)
    ensures StackAddress(sp) != FRAME_COUNTER && StackAddress(sp) != DMA_ADDRESS
  {
  }

  lemma PushDiscreet(c: Core, src: Source, cb: Callback)
    ensures Discreet(c, ExecPush(c, src, cb))
  {
    hide Called, StackAddress, ValueOf, Discreet;
    StackIsElsewhere(c.sp);
    match ValueOf(c, src) {
      case Some(v) =>
        var s := Store(c, StackAddress(c.sp), v);
        CalledDiscreet(c, s.(sp := s.sp - 1), cb);
      case None => CalledDiscreet(c, c.(sp := c.sp - 1), cb);
    }
  }

  lemma PopDiscreet(c: Core, to: Target, cb: Callback, dev: Device)
    requires !BusTarget(to)
    ensures Discreet(c, ExecPop(c, to, cb, dev)) && Discreet(c, ExecPeek(c, to, cb, dev))
  {
    hide Called, StackAddress, Discreet, WriteTarget, LoadTo, LoadValue;
    var a := StackAddress(c.sp);
    LoadToAdds(c, a, to, dev);
    CalledDiscreet(c, LoadTo(c, a, to, dev), cb);
    var l := Load(c, a, dev);
    LoadAdds(c, a, dev);
    SilentTarget(l.(sp := l.sp + 1), to, LoadValue(c, a, dev));
    CalledDiscreet(c, WriteTarget(l.(sp := l.sp + 1), to, LoadValue(c, a, dev)), cb);
  }

  lemma ReadDiscreet(c: Core, from: AddressSource, to: Target, cb: Callback, vec: word, dev: Device)
    requires !BusTarget(to)
    ensures Discreet(c, ExecRead(c, from, to, cb, vec, dev))
  {
    hide Called, AddressOf, LoadTo, Discreet;
    match AddressOf(c, from, vec) {
      case Some(a) =>
        LoadToAdds(c, a, to, dev);
        CalledDiscreet(c, LoadTo(c, a, to, dev), cb);
      case None => CalledDiscreet(c, c, cb);
    }
  }

  lemma FetchDiscreet(c: Core, cb: Callback, dev: Device)
    ensures Discreet(c, ExecFetchLo(c, cb, dev)) && Discreet(c, ExecFetchHi(c, cb, dev)) && Discreet(c, ExecDummy(c, cb, dev))
  {
    hide Called, Discreet, LoadValue, Next;
    var l := Load(c, c.pc, dev);
    LoadAdds(c, c.pc, dev);
    CalledDiscreet(c, l, cb);
    CalledDiscreet(c, l.(lo := LoadValue(c, c.pc, dev), pc := Next(c.pc)), cb);
    CalledDiscreet(c, l.(hi := LoadValue(c, c.pc, dev), pc := Next(c.pc)), cb);
  }

  lemma PageCrossDiscreet(c: Core, index: Source, to: Target, schedule: bool, cb: Callback, dev: Device)
    requires !BusTarget(to)
    ensures Discreet(c, ExecPageCross(c, index, to, schedule, cb, dev))
  {
    hide Called, LoadTo, Pair, ValueOf, Borrows;
    var l := LoadTo(c, Pair(c.hi, c.lo), to, dev);
    LoadToAdds(c, Pair(c.hi, c.lo), to, dev);
    CalledDiscreet(c, l, cb);
  }

  lemma DummyAddDiscreet(c: Core, from: AddressSource, offset: Source, to: Target, cb: Callback, vec: word, dev: Device)
    requires !BusTarget(to)
    ensures Discreet(c, ExecDummyAdd(c, from, offset, to, cb, vec, dev))
  {
    hide Called, WriteTarget, Discreet, LoadValue, ValueOf, AddressOf, Plus8, Low;
    match AddressOf(c, from, vec) {
      case Some(a) =>
        var l := Load(c, a, dev);
        LoadAdds(c, a, dev);
        match ValueOf(l, offset) {
          case Some(v) =>
            SilentTarget(l, to, Plus8(Low(a), v));
            CalledDiscreet(c, WriteTarget(l, to, Plus8(Low(a), v)), cb);
          case None => CalledDiscreet(c, l, cb);
        }
      case None => CalledDiscreet(c, c, cb);
    }
  }

  lemma AddCallDiscreet(c: Core, l: Core, addTo: Source, add: Source, save: Target, incPc: bool, cb: Callback)
    requires Adds(c, l, false) && !BusTarget(save)
    ensures Discreet(c, Called(Stepped(AddTo(l, addTo, add, save), incPc), cb))
  {
    hide Called, AddTo, Discreet, Next;
    AddToLog(l, addTo, add, save);
    CalledDiscreet(c, Stepped(AddTo(l, addTo, add, save), incPc), cb);
  }

  lemma ZeroPageDiscreet(c: Core, from: AddressSource, offset: Source, to: Target, addTo: Source, add: Source,
                         save: Target, incPc: bool, cb: Callback, vec: word, dev: Device)
    requires !BusTarget(to) && !BusTarget(save)
    ensures Discreet(c, ExecZeroPage(c, from, offset, to, addTo, add, save, incPc, cb, vec, dev))
  {
    hide Called, AddTo, Discreet, Stepped, AddressOf, ValueOf, LoadTo, ZeroPage, Plus8, Low;
    match (AddressOf(c, from, vec), ValueOf(c, offset)) {
      case (Some(a), Some(o)) =>
        LoadToAdds(c, ZeroPage(Plus8(Low(a), o)), to, dev);
        AddCallDiscreet(c, LoadTo(c, ZeroPage(Plus8(Low(a), o)), to, dev), addTo, add, save, incPc, cb);
      case _ => AddCallDiscreet(c, c, addTo, add, save, incPc, cb);
    }
  }

  lemma AbsoluteDiscreet(c: Core, from: AddressSource, offset: Source, to: Target, addTo: Source, add: Source,
                         save: Target, incPc: bool, cb: Callback, vec: word, dev: Device)
    requires !BusTarget(to) && !BusTarget(save)
    ensures Discreet(c, ExecAbsolute(c, from, offset, to, addTo, add, save, incPc, cb, vec, dev))
  {
    hide Called, AddTo, Discreet, Stepped, AddressOf, ValueOf, LoadTo, AddLow;
    match (AddressOf(c, from, vec), ValueOf(c, offset)) {
      case (Some(a), Some(o)) =>
        LoadToAdds(c, AddLow(a, o), to, dev);
        AddCallDiscreet(c, LoadTo(c, AddLow(a, o), to, dev), addTo, add, save, incPc, cb);
      case _ => AddCallDiscreet(c, c, addTo, add, save, incPc, cb);
    }
  }

  lemma BranchDiscreet(c: Core, src: Source, pc: word, dev: Device)
    ensures Discreet(c, ExecBranch(c, src, dev)) && Discreet(c, ExecFixHi(c, pc, dev))
  {
    hide LoadValue, BranchTarget, WithLow, Low, High, ValueOf;
  }

  lemma CorruptingDiscreet(c: Core, updateSp: bool, cfg: Config, dev: Device)
    ensures Discreet(c, ExecCorrupting(c, updateSp, cfg, dev))
  {
    hide LoadValue, Borrows, CorruptHigh, CorruptValue, Pair;
  }

  lemma SilentDiscreet(c: Core, op: MicroOp, vec: word, cfg: Config, dev: Device)
    requires Silent(op) && !op.FetchOpcode?
    ensures Discreet(c, Exec(c, op, vec, cfg, dev))
  {
    hide Discreet, ExecFetchOpcode, ExecFetchLo, ExecFetchHi, ExecRead, ExecWrite, ExecPush, ExecPop, ExecPeek, ExecPageCross,
      ExecCorrupting, ExecDummyAdd, ExecDummy, ExecZeroPage, ExecAbsolute, ExecBranch, ExecFixHi, BusTarget;
    match op {
      case FetchOperandLo(cb) => FetchDiscreet(c, cb, dev);
      case FetchOperandHi(cb) => FetchDiscreet(c, cb, dev);
      case DummyRead(cb) => FetchDiscreet(c, cb, dev);
      case Read(from, to, cb) => ReadDiscreet(c, from, to, cb, vec, dev);
      case StackPush(src, cb) => PushDiscreet(c, src, cb);
      case StackPop(to, cb) => PopDiscreet(c, to, cb, dev);
      case StackPeek(to, cb) => PopDiscreet(c, to, cb, dev);
      case ReadPageCrossAware(index, to, schedule, cb) => PageCrossDiscreet(c, index, to, schedule, cb, dev);
      case ReadPageCrossCorrupting(updateSp) => CorruptingDiscreet(c, updateSp, cfg, dev);
      case DummyReadAdd(from, offset, to, cb) => DummyAddDiscreet(c, from, offset, to, cb, vec, dev);
      case ReadZeroPage(from, offset, to, addTo, add, save, incPc, cb) =>
        ZeroPageDiscreet(c, from, offset, to, addTo, add, save, incPc, cb, vec, dev);
      case ReadAbsolute(from, offset, to, addTo, add, save, incPc, cb) =>
        AbsoluteDiscreet(c, from, offset, to, addTo, add, save, incPc, cb, vec, dev);
      case BranchIncrement(src) => BranchDiscreet(c, src, 0, dev);
      case FixHiBranch(pc) => BranchDiscreet(c, Source.Absent, pc, dev);
    }
  }

  lemma TargetAdds(c: Core, to: Target, v: byte)
    ensures Adds(c, WriteTarget(c, to, v), true)
  {
    hide WriteRegister, TargetAddress, Hits, BusTarget;
    RegisterLog(c, to, v);
  }

  lemma RegisterLog(c: Core, to: Target, v: byte)
    ensures WriteRegister(c, to, v).log == c.log
  {
    hide TargetStatus, TargetPc;
  }

  lemma SourceAdds(c: Core, to: Target, src: Source)
    ensures Adds(c, WriteSource(c, to, src), true)
  {
    hide WriteTarget, ValueOf, Adds;
    match ValueOf(c, src) {
      case Some(v) => TargetAdds(c, to, v);
      case None => Unchanged(c);
    }
  }

  lemma Unchanged(c: Core)
    ensures Adds(c, c, true)
  {
  }

  lemma AddsLog(c: Core, c': Core, d: Core, d': Core)
    requires Adds(c, d, true) && c'.log == c.log && d'.log == d.log
    ensures Adds(c', d', true)
  {
  }

  lemma WriteAdds(c: Core, to: Target, src: Source, pre: bool, cb: Callback)
    ensures Adds(c, ExecWrite(c, to, src, pre, cb).core, true)
  {
    hide Called, WriteSource, Adds;
    CalledLog(c, cb);
    CalledLog(WriteSource(c, to, src), cb);
    if pre {
      SourceAdds(Called(c, cb).core, to, src);
      AddsLog(Called(c, cb).core, c, WriteSource(Called(c, cb).core, to, src), WriteSource(Called(c, cb).core, to, src));
    } else {
      SourceAdds(c, to, src);
      AddsLog(c, c, WriteSource(c, to, src), Called(WriteSource(c, to, src), cb).core);
    }
  }

  // --- the shape of programs

  /** Only the last two of the pending micro-operations store, and the last but one only before another store. */
  ghost predicate Shape(ops: seq<MicroOp>) {
    && (forall i {:trigger ops[i]} :: 0 <= i < |ops| ==> ops[i].Write? || Silent(ops[i]))
    && (forall i {:trigger ops[i]} :: 0 <= i < |ops| - 1 && ops[i].Write? ==> i == |ops| - 2 && ops[|ops| - 1].Write?)
  }

  /** A program: no store in its first cycle. */
  ghost predicate Slow(ops: seq<MicroOp>) {
    ops != [] && Shape(ops) && !ops[0].Write? && !ops[0].FetchOpcode?
  }

  lemma SimpleSlow(op: OpType)
    requires Entry(op) && Simple(op)
    ensures Slow(SimpleProgram(op))
  {
    hide PlainCallback;
  }

  lemma ReadsSlow(op: OpType)
    requires Entry(op) && Reads(op)
    ensures Slow(ReadsProgram(op))
  {
  }

  lemma IndexedReadsSlow(op: OpType)
    requires Entry(op) && IndexedReads(op)
    ensures Slow(IndexedReadsProgram(op))
  {
    if op.AbsoluteIndexRead? {
    } else if op.IndexedIndirectRead? {
    }
  }

  lemma StoresSlow(op: OpType)
    requires Stores(op)
    ensures Slow(StoresProgram(op))
  {
  }

  lemma IndexedStoresSlow(op: OpType)
    requires IndexedStores(op)
    ensures Slow(IndexedStoresProgram(op))
  {
    if op.AbsoluteIndexWrite? {
    } else if op.IndexedIndirectWrite? {
    }
  }

  lemma ModifiesSlow(op: OpType)
    requires Entry(op) && Modifies(op)
    ensures Slow(ModifiesProgram(op))
  {
    if op.AbsoluteRMW? {
    } else if op.ZeroPageRMW? {
    }
  }

  lemma IndexedModifiesSlow(op: OpType)
    requires IndexedModifies(op)
    ensures Slow(IndexedModifiesProgram(op))
  {
    if op.AbsoluteIndexRMW? {
    } else if op.IndexedIndirectRMW? {
    }
  }

  lemma JumpsSlow(op: OpType)
    requires Jumps(op)
    ensures Slow(JumpsProgram(op))
  {
  }

  lemma PullsSlow(op: OpType)
    requires Entry(op) && Pulls(op)
    ensures Slow(PullsProgram(op))
  {
  }

  lemma CorruptsSlow(op: OpType)
    requires Corrupts(op)
    ensures Slow(CorruptsProgram(op))
  {
    if op.IndirectIndexedWriteSHA? {
    }
  }

  lemma ProgramSlow(op: OpType)
    requires Entry(op)
    ensures Slow(Program(op))
  {
    hide SimpleProgram, ReadsProgram, IndexedReadsProgram, StoresProgram, IndexedStoresProgram, ModifiesProgram,
      IndexedModifiesProgram, JumpsProgram, PullsProgram, CorruptsProgram, Slow, Entry;
    if Simple(op) {
      SimpleSlow(op);
    } else if Reads(op) {
      ReadsSlow(op);
    } else if IndexedReads(op) {
      IndexedReadsSlow(op);
    } else if Stores(op) {
      StoresSlow(op);
    } else if IndexedStores(op) {
      IndexedStoresSlow(op);
    } else if Modifies(op) {
      ModifiesSlow(op);
    } else if IndexedModifies(op) {
      IndexedModifiesSlow(op);
    } else if Jumps(op) {
      JumpsSlow(op);
    } else if Pulls(op) {
      PullsSlow(op);
    } else {
      CorruptsSlow(op);
    }
  }

  lemma SequencesSlow(vector: word)
    ensures Slow(InterruptProgram(vector)) && Slow(ResetProgram())
    ensures forall i :: 0 <= i < 7 ==> !InterruptProgram(vector)[i].Write? && !InterruptProgram(vector)[i].FetchOpcode?
    ensures forall i :: 0 <= i < 7 ==> !ResetProgram()[i].Write? && !ResetProgram()[i].FetchOpcode?
  {
  }

  // --- how far away the next store is

  /** At least so many cycles come before the next store; behind an instruction there are two more. */
  function Distance(ops: seq<MicroOp>): nat {
    if ops == [] then 2
    else if ops[0].Write? then 0
    else if ops[0].FetchOpcode? then 2
    else 1 + Distance(ops[1..])
  }

  function Later(since: nat): nat { if since >= 3 then 3 else since + 1 }

  /**
   `since` cycles after the last write the frame counter heard, the next store is at least three cycles behind it,
   or it is the second one of a pair.
   */
  ghost predicate Spaced(m: Machine, since: nat, second: bool) {
    && Shape([m.cur] + m.queue)
    && (|| m.core.halted
        || m.dma.remaining >= 3
        || since + Distance([m.cur] + m.queue) + m.dma.remaining >= 3
        || (since == 1 && !second && m.cur.Write? && m.queue == [] && m.dma.remaining == 0))
  }

  /** The pending work when an operation has run and scheduled `push`. */
  ghost predicate Scheduling(cur: MicroOp, queue: seq<MicroOp>, push: seq<MicroOp>) {
    && (push != [] ==> queue == [])
    && (forall i {:trigger push[i]} :: 0 <= i < |push| ==> push[i].Write? || Silent(push[i]))
    && (cur.Write? ==> push == [])
    && (cur.FetchOpcode? ==> Slow(push))
    && (!cur.FetchOpcode? ==> |push| <= 1 && (push != [] ==> Silent(push[0])))
  }

  lemma DistanceStarts(op: MicroOp, rest: seq<MicroOp>)
    ensures Distance([op] + rest) == if op.Write? then 0 else if op.FetchOpcode? then 2 else 1 + Distance(rest)
    ensures Distance([]) == 2
  {
    assert ([op] + rest)[1..] == rest;
  }

  lemma ShapeTail(op: MicroOp, rest: seq<MicroOp>)
    requires Shape([op] + rest)
    ensures Shape(rest) && (op.Write? && rest != [] ==> |rest| == 1 && rest[0].Write?)
  {
    var ops := [op] + rest;
    forall i {:trigger rest[i]} | 0 <= i < |rest|
      ensures rest[i].Write? || Silent(rest[i])
      ensures i < |rest| - 1 && rest[i].Write? ==> i == |rest| - 2 && rest[|rest| - 1].Write?
    {
      assert ops[i + 1] == rest[i];
    }
    assert ops[0] == op;
    if rest != [] {
      assert ops[|ops| - 1] == rest[|rest| - 1];
    }
  }

  /** What is pending next keeps its shape, and its store comes nearer by one cycle at most. */
  lemma NextWork(cur: MicroOp, queue: seq<MicroOp>, push: seq<MicroOp>)
    requires Shape([cur] + queue) && Scheduling(cur, queue, push) && (cur.FetchOpcode? ==> queue == [])
    requires forall i {:trigger queue[i]} :: 0 <= i < |queue| ==> !queue[i].FetchOpcode?
    ensures Shape(queue + push)
    ensures !cur.Write? ==> Distance(queue + push) + 1 >= Distance([cur] + queue)
    ensures cur.Write? && queue == [] ==> queue + push == []
    ensures cur.Write? && queue != [] ==> |queue + push| == 1 && (queue + push)[0].Write?
  {
    hide Silent;
    DistanceStarts(cur, queue);
    ShapeTail(cur, queue);
    if push == [] {
      assert queue + push == queue;
    } else {
      assert queue + push == push;
      if cur.FetchOpcode? {
        assert push == [push[0]] + push[1..];
        DistanceStarts(push[0], push[1..]);
      } else {
        assert push == [push[0]] + [];
        DistanceStarts(push[0], []);
        SilentShape(push[0]);
      }
    }
  }

  lemma SilentShape(op: MicroOp)
    requires Silent(op)
    ensures Shape([op]) && !op.Write? && Distance([op]) >= 2
  {
  }

  lemma NothingShape()
    ensures Shape([]) && Shape([FetchOpcode])
  {
  }

  lemma {:induction false} SilentDistance(ops: seq<MicroOp>)
    requires forall i {:trigger ops[i]} :: 0 <= i < |ops| ==> !ops[i].Write? && !ops[i].FetchOpcode?
    ensures Distance(ops) == |ops| + 2
    decreases |ops|
  {
    if ops != [] {
      SilentDistance(ops[1..]);
    }
  }

  /** The next micro-operation behind `m`, which has `m.queue` left to do. */
  lemma AdvanceSpaced(m: Machine)
    requires Shape(m.queue)
    ensures var n := Advance(m);
      && Shape([n.cur] + n.queue) && Distance([n.cur] + n.queue) >= Distance(m.queue)
      && (m.queue != [] ==> [n.cur] + n.queue == m.queue)
      && n.core == m.core && n.dma == m.dma
  {
    hide Shape, InterruptProgram, IrqDue, Slow;
    SlowShape(NMI_VECTOR);
    SlowShape(IRQ_VECTOR);
    NothingShape();
    DistanceStarts(FetchOpcode, []);
    var n := Advance(m);
    if m.queue != [] {
      assert [n.cur] + n.queue == m.queue;
    } else if m.nmi.pending {
      assert [n.cur] + n.queue == InterruptProgram(NMI_VECTOR);
    } else if IrqDue(m) {
      assert [n.cur] + n.queue == InterruptProgram(IRQ_VECTOR);
    } else {
      assert [n.cur] + n.queue == [FetchOpcode] + [] == [FetchOpcode];
    }
  }

  lemma SlowShape(vector: word)
    ensures var ops := InterruptProgram(vector); |ops| == 7 && Shape(ops) && Distance(ops) == 9 && [ops[0]] + ops[1..] == ops
    ensures var ops := ResetProgram(); |ops| == 7 && Shape(ops) && Distance(ops) == 9 && [ops[0]] + ops[1..] == ops
  {
    hide Shape, InterruptProgram, ResetProgram, Distance;
    SequencesSlow(vector);
    SevenLong(vector);
    SilentDistance(InterruptProgram(vector));
    SilentDistance(ResetProgram());
    var ops, resets := InterruptProgram(vector), ResetProgram();
    assert [ops[0]] + ops[1..] == ops && [resets[0]] + resets[1..] == resets;
  }

  lemma SevenLong(vector: word)
    ensures |InterruptProgram(vector)| == 7 && |ResetProgram()| == 7
  {
  }

  // --- one event

  lemma WritesOne(a: Access)
    ensures Writes([]) == []
    ensures Writes([a]) == if Hits(a) then [Apu.Event.Write(Flag(a.data, 0x80), Flag(a.data, 0x40))] else []
  {
    hide Flag, Hits;
    assert [a][..0] == [];
  }

  /** Such a step is heard as one write at most. */
  lemma HeardOne(c: Core, d: Core, loud: bool)
    requires Adds(c, d, loud)
    ensures var ws := Writes(Added(c, d)); ws == [] || (loud && |ws| == 1 && ws[0].Write?)
  {
    hide Hits, Writes;
    if d.log == c.log {
      assert Added(c, d) == [];
      WritesOne(Loaded(0, 0));
    } else {
      assert Added(c, d) == [d.log[|c.log|]];
      WritesOne(d.log[|c.log|]);
    }
  }

  lemma ExecSchedules(m: Machine, cfg: Config, dev: Device)
    requires Inv(m) && m.dma.remaining == 0 && Shape([m.cur] + m.queue)
    ensures var e := Exec(m.core, m.cur, m.irq.locked, cfg, dev);
      Scheduling(m.cur, m.queue, e.push) && Adds(m.core, e.core, m.cur.Write?)
  {
    hide Exec, Slow, Adds, Loadable, Silent, Sane, StackBitsClear, Program, Decode, ExecFetchOpcode, ExecWrite, Executed, DmaStarted,
      Mid, Budget, Scheduled;
    var c := m.core;
    var e := Exec(c, m.cur, m.irq.locked, cfg, dev);
    ExecutedMid(m, cfg, dev);
    ExecFollows(c, m.cur, m.queue, m.irq.locked, cfg, dev);
    assert ([m.cur] + m.queue)[0] == m.cur;
    if m.cur.FetchOpcode? {
      FetchSlow(c, m.irq.locked, cfg, dev);
      SlowSilent(e.push);
    } else if m.cur.Write? {
      WriteIs(c, m.cur, m.irq.locked, cfg, dev);
      WriteAdds(c, m.cur.to, m.cur.src, m.cur.pre, m.cur.cb);
    } else {
      SilentDiscreet(c, m.cur, m.irq.locked, cfg, dev);
    }
  }

  lemma SlowSilent(ops: seq<MicroOp>)
    requires Slow(ops)
    ensures forall i {:trigger ops[i]} :: 0 <= i < |ops| ==> ops[i].Write? || Silent(ops[i])
  {
    hide Silent;
  }

  lemma WriteIs(c: Core, op: MicroOp, vec: word, cfg: Config, dev: Device)
    requires op.Write?
    ensures Exec(c, op, vec, cfg, dev) == ExecWrite(c, op.to, op.src, op.pre, op.cb)
  {
    hide ExecWrite;
  }

  lemma FetchSlow(c: Core, vec: word, cfg: Config, dev: Device)
    ensures var e := Exec(c, FetchOpcode, vec, cfg, dev); Slow(e.push) && Adds(c, e.core, false)
  {
    hide Slow, Program, Decode, LoadValue, Next;
    EveryOpcodeIsAnEntry(LoadValue(c, c.pc, dev));
    ProgramSlow(Decode(LoadValue(c, c.pc, dev)));
    LoadAdds(c, c.pc, dev);
    assert Exec(c, FetchOpcode, vec, cfg, dev) == ExecFetchOpcode(c, dev);
  }

  lemma NoFetchQueued(m: Machine)
    requires Inv(m)
    ensures m.cur.FetchOpcode? ==> m.queue == []
    ensures forall i {:trigger m.queue[i]} :: 0 <= i < |m.queue| ==> !m.queue[i].FetchOpcode?
  {
    hide Budget, StackBitsClear, Extra;
    forall i {:trigger m.queue[i]} | 0 <= i < |m.queue|
      ensures !m.queue[i].FetchOpcode?
    {
      assert ([m.cur] + m.queue)[i + 1] == m.queue[i];
    }
  }

  lemma StartedCore(m: Machine, l: Lines)
    ensures var n := Sampled(DmaStarted(m), l);
      && n.core == m.core.(rdy := false) && n.queue == m.queue && n.cur == m.cur
      && n.dma.remaining == if m.core.rdy then DMA_CYCLES else m.dma.remaining
  {
  }

  /** The spacing after a cycle in which a micro-operation ran. */
  ghost predicate SpacedOn(n: Machine, ws: seq<Apu.Event>, since: nat, second: bool) {
    || (ws == [] && Spaced(n, Later(since), second))
    || (|ws| == 1 && ws[0].Write? && (since == 3 || (since == 1 && !second)) && Spaced(n, 1, since == 1))
  }

  lemma ExecutesSpaced(m: Machine, e: Event, since: nat, second: bool, cfg: Config, dev: Device)
    requires Inv(m) && Executes(m, e) && 1 <= since <= 3 && Spaced(m, since, second)
    ensures var n := Happen(m, e, cfg, dev); SpacedOn(n, Writes(Added(m.core, n.core)), since, second)
  {
    hide Inv, Exec, Shape, Scheduling, Distance, Advance, Sampled, DmaStarted, CalledIrq, Adds, Writes, Added;
    var t := m.(dma := m.dma.(readCycle := !m.dma.readCycle));
    PolledInv(t) by { KeepsInv(m); }
    var p := Polled(t);
    var x := Executed(p, cfg, dev);
    var d := Sampled(DmaStarted(x), e.lines);
    var push := Exec(m.core, m.cur, m.irq.locked, cfg, dev).push;
    ExecSchedules(m, cfg, dev);
    NoFetchQueued(m);
    NextWork(m.cur, m.queue, push);
    StartedCore(x, e.lines);
    AdvanceSpaced(d);
    var n := Advance(d);
    HeardSame(m.core, x.core, n.core, m.cur.Write?);
    DistanceStarts(m.cur, m.queue);
    PairLeft(m.queue + push);
    var ws := Writes(Added(m.core, n.core));
    if x.core.rdy {
      assert n.dma.remaining == DMA_CYCLES;
    } else if m.cur.Write? && m.queue != [] {
      assert |m.queue + push| >= |m.queue| > 0;
      assert |[n.cur] + n.queue| == 1 && ([n.cur] + n.queue)[0] == n.cur;
    } else if m.cur.Write? {
      assert Distance([n.cur] + n.queue) >= 2;
    } else {
      assert ws == [];
      assert Distance([n.cur] + n.queue) + 1 >= Distance([m.cur] + m.queue);
    }
  }

  lemma KeepsInv(m: Machine)
    requires Inv(m)
    ensures Inv(m.(dma := m.dma.(readCycle := !m.dma.readCycle)))
  {
    hide Scheduled, StackBitsClear;
  }

  lemma HeardSame(c: Core, x: Core, n: Core, loud: bool)
    requires Adds(c, x, loud) && n.log == x.log
    ensures var ws := Writes(Added(c, n)); ws == [] || (loud && |ws| == 1 && ws[0].Write?)
  {
    hide Writes, Hits;
    HeardOne(c, n, loud);
  }

  lemma PairLeft(ops: seq<MicroOp>)
    ensures ops == [] ==> Distance(ops) == 2
  {
  }

  lemma DmaAdds(m: Machine, cfg: Config, dev: Device)
    requires 1 <= m.dma.remaining <= DMA_CYCLES
    ensures var n := DmaCycle(m, cfg, dev);
      && Adds(m.core, n.core, false) && n.core.halted == m.core.halted
      && n.dma.remaining == (if m.dma.remaining == DMA_CYCLES - 1 && m.dma.readCycle then DMA_CYCLES - 3 else m.dma.remaining - 1)
  {
    hide LoadValue, Pair, DmaIdle, DmaTransfer, DmaAddress, Load, Hits;
    var c := m.core;
    if m.dma.remaining == DMA_CYCLES || (m.dma.remaining == DMA_CYCLES - 1 && !m.dma.readCycle) {
      DmaIdleEffect(m, cfg, dev);
      LoadFrame(c, Pair(c.hi, c.lo), dev);
      LoadAdds(c, Pair(c.hi, c.lo), dev);
    } else {
      var t := if m.dma.remaining == DMA_CYCLES - 1 then m.(dma := m.dma.(remaining := 512)) else m;
      if t.dma.remaining % 2 == 0 {
        var a := DmaAddress(c.page, 256 - t.dma.remaining / 2);
        DmaReadEffect(t, cfg, dev);
        LoadFrame(c, a, dev);
        LoadAdds(c, a, dev);
      } else {
        DmaWriteEffect(t, cfg, dev);
        OamIsElsewhere(c.db);
      }
    }
  }

  lemma OamIsElsewhere(v: byte)
    ensures !Hits(Stored(OAM_ADDRESS, v))
  {
  }

  lemma WaitingSpaced(m: Machine, e: Event, since: nat, second: bool, cfg: Config, dev: Device)
    requires Inv(m) && e.Clock? && !Executes(m, e) && 1 <= since <= 3 && Spaced(m, since, second)
    ensures var n := Happen(m, e, cfg, dev); SpacedOn(n, Writes(Added(m.core, n.core)), since, second)
  {
    hide StackBitsClear, Scheduled, DmaCycle, Shape, Distance, Hits, Writes, Added, Adds;
    if m.core.halted {
      Still(m.core);
    } else {
      var t := m.(dma := m.dma.(readCycle := !m.dma.readCycle));
      DmaAdds(t, cfg, dev);
      WaitingKeeps(m, e, cfg, dev);
      HeardOne(m.core, DmaCycle(t, cfg, dev).core, false);
    }
  }

  lemma Still(c: Core)
    ensures Writes(Added(c, c)) == []
  {
    assert Added(c, c) == [];
  }

  lemma PressSpaced(m: Machine, since: nat, second: bool)
    requires Spaced(m, since, second)
    ensures Spaced(Reset(m), since, second)
  {
    hide Shape, Distance, ResetProgram;
    SlowShape(NMI_VECTOR);
  }

  // --- whole runs

  lemma TickedOn(es: seq<Apu.Event>)
    ensures var ts := es + [Apu.Tick];
      && Apu.SinceWrite(ts) == Later(Apu.SinceWrite(es)) && Apu.Second(ts) == Apu.Second(es)
      && (Apu.Paired(es) ==> Apu.Paired(ts))
  {
    hide Apu.SinceWrite, Apu.Second;
    Apu.AfterOne(Apu.POWER_ON, es, Apu.Tick);
    SecondOne(es, Apu.Tick);
    if Apu.Paired(es) {
      PairedOne(es, Apu.Tick);
    }
  }

  lemma WrittenOn(es: seq<Apu.Event>, w: Apu.Event)
    requires w.Write?
    ensures var ws := es + [w];
      && Apu.SinceWrite(ws) == 0 && Apu.Second(ws) == (Apu.SinceWrite(es) == 1)
      && (Apu.Paired(es) && (Apu.SinceWrite(es) == 3 || (Apu.SinceWrite(es) == 1 && !Apu.Second(es))) ==> Apu.Paired(ws))
  {
    hide Apu.SinceWrite, Apu.Second;
    Apu.AfterOne(Apu.POWER_ON, es, w);
    SecondOne(es, w);
    if Apu.Paired(es) && (Apu.SinceWrite(es) == 3 || (Apu.SinceWrite(es) == 1 && !Apu.Second(es))) {
      PairedOne(es, w);
    }
  }

  lemma SecondOne(es: seq<Apu.Event>, e: Apu.Event)
    ensures Apu.Second(es + [e]) == if e.Write? then Apu.SinceWrite(es) == 1 else Apu.Second(es)
  {
    hide Apu.SinceWrite;
    assert (es + [e])[..|es|] == es;
  }

  lemma PairedOne(es: seq<Apu.Event>, e: Apu.Event)
    requires Apu.Paired(es)
    requires e.Write? ==> Apu.SinceWrite(es) == 3 || (Apu.SinceWrite(es) == 1 && !Apu.Second(es))
    ensures Apu.Paired(es + [e])
  {
    hide Apu.SinceWrite, Apu.Second;
    var all := es + [e];
    forall i {:trigger all[i]} | 0 <= i < |all| && all[i].Write?
      ensures Apu.SinceWrite(all[..i]) == 3 || (Apu.SinceWrite(all[..i]) == 1 && !Apu.Second(all[..i]))
    {
      if i < |es| {
        assert all[i] == es[i] && all[..i] == es[..i];
      } else {
        assert all[..i] == es;
      }
    }
  }

  /** After a cycle, the frame counter has heard its store, if any, and a clock. */
  lemma HeardOn(es: seq<Apu.Event>, n: Machine, ws: seq<Apu.Event>)
    requires Apu.Paired(es) && SpacedOn(n, ws, Apu.SinceWrite(es), Apu.Second(es))
    ensures var ts := es + (ws + [Apu.Tick]);
      Apu.Paired(ts) && 1 <= Apu.SinceWrite(ts) && Spaced(n, Apu.SinceWrite(ts), Apu.Second(ts))
  {
    hide Apu.SinceWrite, Apu.Second, Apu.Paired, Spaced;
    if ws == [] {
      assert es + (ws + [Apu.Tick]) == es + [Apu.Tick];
      TickedOn(es);
    } else {
      var w := ws[0];
      assert ws == [w] && es + (ws + [Apu.Tick]) == (es + [w]) + [Apu.Tick];
      WrittenOn(es, w);
      TickedOn(es + [w]);
    }
  }

  lemma {:induction false} SpacedAt(run: seq<Machine>, events: seq<Event>, cfg: Config, dev: Device, i: nat)
    requires Run(run, events, cfg, dev) && i <= |events|
    ensures var es := Heard(run, events, i);
      Apu.Paired(es) && 1 <= Apu.SinceWrite(es) && Spaced(run[i], Apu.SinceWrite(es), Apu.Second(es))
    decreases i
  {
    hide Inv, Happen, PowerOn, Spaced, Writes, Added, Apu.SinceWrite, Apu.Second, Apu.Paired, SpacedOn, Executes;
    if i == 0 {
      PowerOnSpaced();
    } else {
      SpacedAt(run, events, cfg, dev, i - 1);
      RunInv(run, events, cfg, dev, i - 1);
      var m, e, es := run[i - 1], events[i - 1], Heard(run, events, i - 1);
      assert events[i - 1] == e;
      if e.Press? {
        PressIs(m, e, cfg, dev);
        PressSpaced(m, Apu.SinceWrite(es), Apu.Second(es));
        assert es + [] == es;
      } else {
        if Executes(m, e) {
          ExecutesSpaced(m, e, Apu.SinceWrite(es), Apu.Second(es), cfg, dev);
        } else {
          WaitingSpaced(m, e, Apu.SinceWrite(es), Apu.Second(es), cfg, dev);
        }
        HeardOn(es, run[i], Writes(Added(m.core, run[i].core)));
      }
    }
  }

  lemma PressIs(m: Machine, e: Event, cfg: Config, dev: Device)
    requires m.dma.remaining <= DMA_CYCLES && e.Press?
    ensures Happen(m, e, cfg, dev) == Reset(m)
  {
    hide Cycle, Reset;
  }

  lemma PowerOnSpaced()
    ensures Apu.Paired([]) && Apu.SinceWrite([]) == 3 && Spaced(PowerOn(), 3, Apu.Second([]))
  {
    hide Decode, Distance, Shape;
    NothingShape();
    assert [PowerOn().cur] + PowerOn().queue == [FetchOpcode];
  }

  /**
   In every run from power-on, of any program and whatever the interrupts, DMA transfers and resets, the stores to $4017
   are three cycles apart, but that one may follow another after a single cycle; so the counters of the frame counter
   stay within a few clocks of the end of its sequence.
   */
  lemma FrameCounterStays(run: seq<Machine>, events: seq<Event>, cfg: Config, dev: Device, i: nat)
    requires Run(run, events, cfg, dev) && i <= |events|
    ensures var es := Heard(run, events, i);
      var s := Apu.AfterAll(Apu.POWER_ON, es).state;
      Apu.Paired(es) && s.apu <= Apu.STEP_5 + 2 && s.cpu <= 2 * Apu.STEP_5 + 4
  {
    hide Happen, PowerOn, Heard, Spaced, Apu.SinceWrite, Apu.Second, Apu.Paired, Apu.AfterAll;
    SpacedAt(run, events, cfg, dev, i);
    Apu.PairedBounded(Heard(run, events, i));
  }
}
