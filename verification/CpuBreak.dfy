/** BRK, whose vector an NMI may take over while it runs. */
module CpuBreak {
  import opened Bits
  import opened CpuTypes
  import opened CpuExec
  import opened CpuMachine
  import opened CpuSafety
  import opened CpuFlow
  import opened CpuAddressing
  import opened CpuControl
  import opened CpuCorrectness
  import opened CpuInterrupts
  import opened CpuRuns
  import opened CpuReturns
  import opened InstructionSet
  import opened Opcodes

  /** The machine has registers `c` and `ops` left to do. */
  predicate Doing(m: Machine, c: Core, ops: seq<MicroOp>) {
    m.core == c && [m.cur] + m.queue == ops && m.dma.remaining == 0 && Ready(c)
  }

  /** The same whatever the registers are. */
  predicate Stage(m: Machine, ops: seq<MicroOp>) {
    Doing(m, m.core, ops)
  }

  lemma DoingStage(m: Machine, c: Core, ops: seq<MicroOp>)
    requires Doing(m, c, ops)
    ensures Stage(m, ops)
  {
    hide Ready;
  }

  /** The vector that is current after the lines were sampled. */
  function Sample(current: word, prev: bool, l: Lines): word {
    if l.irq then IRQ_VECTOR else if l.nmi && !prev then NMI_VECTOR else current
  }

  predicate VectorsFollow(m: Machine, n: Machine, l: Lines) {
    var i := CalledIrq(m.irq, m.core, CallbackOf(m.cur));
    n.irq.locked == i.locked && n.irq.current == Sample(i.current, m.nmi.prev, l) && n.nmi.prev == l.nmi
  }

  lemma CycleVectors(m: Machine, l: Lines, cfg: Config, dev: Device)
    requires m.dma.remaining == 0 && Ready(m.core)
    ensures VectorsFollow(m, Cycle(m, l, cfg, dev), l)
  {
    hide Exec, Advance, DmaStarted, DmaCycle, Polled, CallbackOf, AddressOf;
    var t := m.(dma := m.dma.(readCycle := !m.dma.readCycle));
    var p := Polled(t);
    PolledVectors(t);
    var x := Executed(p, cfg, dev);
    StartedVectors(x);
    AdvanceVectors(Sampled(DmaStarted(x), l));
    SameCall(m.irq, p.irq, m.core, CallbackOf(m.cur));
    hide CalledIrq, Sampled, Executed;
    SampledVectors(DmaStarted(x), l);
    ExecutedVectors(p, cfg, dev);
  }

  lemma ExecutedVectors(m: Machine, cfg: Config, dev: Device)
    ensures var x := Executed(m, cfg, dev); x.irq == CalledIrq(m.irq, m.core, CallbackOf(m.cur)) && x.nmi == m.nmi
  {
    hide Exec, CalledIrq, CallbackOf;
  }

  lemma SampledVectors(m: Machine, l: Lines)
    ensures var n := Sampled(m, l);
      n.irq.locked == m.irq.locked && n.irq.current == Sample(m.irq.current, m.nmi.prev, l) && n.nmi.prev == l.nmi
  {
  }

  lemma PolledVectors(m: Machine)
    ensures var p := Polled(m);
      && p.irq == m.irq.(pending := p.irq.pending) && p.nmi.prev == m.nmi.prev && p.core == m.core && p.cur == m.cur
      && p.dma == m.dma
  {
  }

  lemma StartedVectors(m: Machine)
    ensures var n := DmaStarted(m); n.irq.locked == m.irq.locked && n.irq.current == m.irq.current && n.nmi == m.nmi
  {
  }

  lemma AdvanceVectors(m: Machine)
    ensures var n := Advance(m); n.irq.locked == m.irq.locked && n.irq.current == m.irq.current && n.nmi.prev == m.nmi.prev
  {
    hide InterruptProgram, IrqDue;
  }

  /** Copying a vector does not depend on whether an interrupt is pending. */
  lemma SameCopy(i: Irq, j: Irq, c: Core, cb: Callback)
    requires j == i.(pending := j.pending) && cb.COPY?
    ensures CalledIrq(i, c, cb).locked == CalledIrq(j, c, cb).locked && CalledIrq(i, c, cb).current == CalledIrq(j, c, cb).current
  {
    hide AddressOf;
    assert i.locked == j.locked && i.current == j.current;
    if cb.to.IrqVecCandidate? {
      match AddressOf(c, cb.from, i.locked) {
        case Some(a) => assert CalledIrq(i, c, cb) == i.(current := a) && CalledIrq(j, c, cb) == j.(current := a);
        case None => assert CalledIrq(i, c, cb) == i && CalledIrq(j, c, cb) == j;
      }
    } else {
      assert CalledIrq(i, c, cb) == i && CalledIrq(j, c, cb) == j;
    }
  }

  /** The pending flag plays no part in what callbacks do. */
  lemma SameCall(i: Irq, j: Irq, c: Core, cb: Callback)
    requires j == i.(pending := j.pending)
    ensures CalledIrq(i, c, cb).locked == CalledIrq(j, c, cb).locked && CalledIrq(i, c, cb).current == CalledIrq(j, c, cb).current
  {
    if cb.COPY? {
      SameCopy(i, j, c, cb);
    } else {
      hide AddressOf;
    }
  }

  lemma DoingStep(m: Machine, l: Lines, c: Core, op: MicroOp, d: Core, push: seq<MicroOp>, rest: seq<MicroOp>, cfg: Config, dev: Device)
    requires Doing(m, c, [op] + m.queue) && m.queue + push == rest && rest != []
    requires Exec(c, op, m.irq.locked, cfg, dev) == Effect(d, push) && Ready(d)
    ensures Doing(Cycle(m, l, cfg, dev), d, rest) && VectorsFollow(m, Cycle(m, l, cfg, dev), l)
  {
    hide Exec, Cycle, VectorsFollow, Ready, Between;
    assert ([m.cur] + m.queue)[0] == m.cur && ([op] + m.queue)[0] == op;
    CycleStep(m, l, cfg, dev);
    CycleVectors(m, l, cfg, dev);
    ReadySettled(Cycle(m, l, cfg, dev), d);
  }

  // --- BRK

  const SKIP := ReadPc(Target.Nowhere, true, COPY(AddressSource.Address(0xFFFE), IrqVecCandidate))
  const PUSH_STATUS := StackPush(Source.PBrk, LockIrqVec)
  function BreakTail(): seq<MicroOp> { [ReadVectorLow(IrqVec), ReadVectorHigh(IrqVec, NoOp)] }

  lemma BreakProgram(op: OpType)
    requires op.BRK? && Entry(op)
    ensures Program(op) == [SKIP] + [StackPush(Source.PCH, NoOp)] + [StackPush(Source.PCL, NoOp)] + [PUSH_STATUS] + BreakTail()
  {
  }

  /** The vector BRK goes through: an NMI edge in its second to fourth cycle takes it over, an IRQ takes it back. */
  function BreakVector(lines: seq<Lines>): word
    requires |lines| >= 4
  {
    Sample(Sample(Sample(IRQ_VECTOR, lines[0].nmi, lines[1]), lines[1].nmi, lines[2]), lines[2].nmi, lines[3])
  }

  predicate EdgeAt(lines: seq<Lines>, k: nat)
    requires 1 <= k < |lines|
  {
    lines[k].nmi && !lines[k - 1].nmi && !lines[k].irq
  }

  /** BRK is taken over by an NMI exactly when an edge in its second to fourth cycle is not followed by an IRQ. */
  lemma TakenOver(lines: seq<Lines>)
    requires |lines| >= 4
    ensures BreakVector(lines) == IRQ_VECTOR || BreakVector(lines) == NMI_VECTOR
    ensures BreakVector(lines) == NMI_VECTOR <==>
      exists k {:trigger EdgeAt(lines, k)} :: 1 <= k <= 3 && EdgeAt(lines, k) && forall j :: k < j <= 3 ==> !lines[j].irq
  {
    if EdgeAt(lines, 3) {
    } else if EdgeAt(lines, 2) {
    } else if EdgeAt(lines, 1) {
    } else {
    }
  }

  lemma PlainVectors(m: Machine, n: Machine, l: Lines)
    requires VectorsFollow(m, n, l) && CallbackOf(m.cur).NoOp?
    ensures n.irq.locked == m.irq.locked && n.irq.current == Sample(m.irq.current, m.nmi.prev, l) && n.nmi.prev == l.nmi
  {
    hide Sample;
  }

  lemma LockVectors(m: Machine, n: Machine, l: Lines)
    requires VectorsFollow(m, n, l) && m.cur == PUSH_STATUS
    ensures n.irq.locked == m.irq.current
  {
    hide Sample;
  }

  lemma CopyVectors(m: Machine, n: Machine, l: Lines)
    requires VectorsFollow(m, n, l) && m.cur == SKIP
    ensures n.irq.current == Sample(IRQ_VECTOR, m.nmi.prev, l) && n.nmi.prev == l.nmi
  {
    hide Sample;
  }

  /** A push that locks nothing. */
  lemma PushStep(m: Machine, l: Lines, c: Core, src: Source, d: Core, rest: seq<MicroOp>, cfg: Config, dev: Device)
    requires Doing(m, c, [StackPush(src, NoOp)] + rest) && rest != []
    requires Exec(c, StackPush(src, NoOp), m.irq.locked, cfg, dev) == Effect(d, []) && Ready(d)
    ensures var n := Cycle(m, l, cfg, dev);
      && Doing(n, d, rest) && n.dma.remaining == 0
      && n.irq.current == Sample(m.irq.current, m.nmi.prev, l) && n.nmi.prev == l.nmi
  {
    hide Exec, Cycle, Ready, VectorsFollow, Sample;
    QueueOf(m, c, StackPush(src, NoOp), rest);
    DoingStep(m, l, c, StackPush(src, NoOp), d, [], rest, cfg, dev);
    PlainVectors(m, Cycle(m, l, cfg, dev), l);
  }

  lemma BreakPushes(m: Machine, l0: Lines, l1: Lines, l2: Lines, c: Core, rest: seq<MicroOp>, cfg: Config, dev: Device)
    requires Doing(m, c, [StackPush(Source.PCH, NoOp)] + ([StackPush(Source.PCL, NoOp)] + ([PUSH_STATUS] + rest))) && rest != []
    ensures var m1 := Cycle(m, l0, cfg, dev);
      && m1.dma.remaining <= DMA_CYCLES && Cycle(m1, l1, cfg, dev).dma.remaining <= DMA_CYCLES
      && Stage(m1, [StackPush(Source.PCL, NoOp)] + ([PUSH_STATUS] + rest))
      && Stage(Cycle(m1, l1, cfg, dev), [PUSH_STATUS] + rest)
    ensures var m1 := Cycle(m, l0, cfg, dev);
      var m2 := Cycle(m1, l1, cfg, dev);
      var m3 := Cycle(m2, l2, cfg, dev);
      && Doing(m3, ReturnPushed(c, StatusBrk(c.p)), rest)
      && m3.irq.locked == Sample(Sample(m.irq.current, m.nmi.prev, l0), l0.nmi, l1)
  {
    hide Exec, Cycle, Ready, InstructionSet.Pushed, High, Low, StatusBrk, Sample, VectorsFollow, ReturnPushed, Stage;
    var n := InstructionSet.Pushed(c, High(c.pc));
    var q := InstructionSet.Pushed(n, Low(c.pc));
    DoingReady(m, c);
    PushesPc(c, m.irq.locked, cfg, dev);
    PushStep(m, l0, c, Source.PCH, n, [StackPush(Source.PCL, NoOp)] + ([PUSH_STATUS] + rest), cfg, dev);
    var m1 := Cycle(m, l0, cfg, dev);
    PushesPc(c, m1.irq.locked, cfg, dev);
    PushStep(m1, l1, n, Source.PCL, q, [PUSH_STATUS] + rest, cfg, dev);
    DoingStage(m1, n, [StackPush(Source.PCL, NoOp)] + ([PUSH_STATUS] + rest));
    DoingStage(Cycle(m1, l1, cfg, dev), q, [PUSH_STATUS] + rest);
    StatusStep(Cycle(m1, l1, cfg, dev), l2, c, q, rest, cfg, dev);
  }

  lemma DoingReady(m: Machine, c: Core)
    ensures forall ops :: Doing(m, c, ops) ==> Ready(c)
  {
  }

  lemma StatusStep(m: Machine, l: Lines, c: Core, q: Core, rest: seq<MicroOp>, cfg: Config, dev: Device)
    requires Doing(m, q, [PUSH_STATUS] + rest) && rest != []
    requires q == InstructionSet.Pushed(InstructionSet.Pushed(c, High(c.pc)), Low(c.pc)) && Ready(c)
    ensures var n := Cycle(m, l, cfg, dev);
      Doing(n, ReturnPushed(c, StatusBrk(c.p)), rest) && n.irq.locked == m.irq.current
  {
    hide Exec, Cycle, Ready, InstructionSet.Pushed, High, Low, StatusBrk, VectorsFollow;
    QueueOf(m, q, PUSH_STATUS, rest);
    StatusValue(c, q, Source.PBrk, StatusBrk(c.p));
    DoPush(q, Source.PBrk, StatusBrk(c.p), m.irq.locked, cfg, dev);
    ReturnReady(c, StatusBrk(c.p));
    DoingStep(m, l, q, PUSH_STATUS, ReturnPushed(c, StatusBrk(c.p)), [], rest, cfg, dev);
    LockVectors(m, Cycle(m, l, cfg, dev), l);
  }

  lemma QueueOf(m: Machine, c: Core, op: MicroOp, rest: seq<MicroOp>)
    requires Doing(m, c, [op] + rest)
    ensures m.cur == op && m.queue == rest && m.queue + [] == rest && Doing(m, c, [op] + m.queue)
  {
    assert ([m.cur] + m.queue)[1..] == m.queue && ([op] + rest)[1..] == rest;
    assert ([m.cur] + m.queue)[0] == m.cur && ([op] + rest)[0] == op;
  }

  /** What BRK does behind the byte after it. */
  function BreakRest(): seq<MicroOp> {
    [StackPush(Source.PCH, NoOp)] + ([StackPush(Source.PCL, NoOp)] + ([PUSH_STATUS] + BreakTail()))
  }

  lemma BreakFetch(m: Machine, l: Lines, cfg: Config, dev: Device)
    requires Inv(m) && AtFetch(m) && OpcodeAt(m.core, dev).BRK?
    ensures var n := Cycle(m, l, cfg, dev);
      Doing(n, OpcodeFetched(m.core, OpcodeAt(m.core, dev), dev), [SKIP] + BreakRest()) && n.nmi.prev == l.nmi
  {
    hide Exec, Cycle, Ready, Decode, LoadValue, Program, BreakTail, Entry, OpcodeFetched, Inv, VectorsFollow;
    var c := m.core;
    var op := OpcodeAt(c, dev);
    FetchAlone(m);
    FetchReady(m);
    EveryOpcodeIsAnEntry(LoadValue(c, c.pc, dev));
    BreakProgram(op);
    assert Program(op) == [SKIP] + BreakRest();
    FetchEffect(c, op, m.irq.locked, cfg, dev);
    FetchedReady(c, op, dev);
    DoingStep(m, l, c, FetchOpcode, OpcodeFetched(c, op, dev), Program(op), [SKIP] + BreakRest(), cfg, dev);
    PlainVectors(m, Cycle(m, l, cfg, dev), l);
  }

  lemma BreakSkip(m: Machine, l: Lines, c: Core, op: OpType, cfg: Config, dev: Device)
    requires Doing(m, OpcodeFetched(c, op, dev), [SKIP] + BreakRest())
    ensures var k := Peeked(c, op, dev);
      var n := Cycle(m, l, cfg, dev);
      Doing(n, k.(pc := Next(k.pc)), BreakRest()) && n.irq.current == Sample(IRQ_VECTOR, m.nmi.prev, l) && n.nmi.prev == l.nmi
  {
    hide Exec, Cycle, Ready, Sample, VectorsFollow, OpcodeFetched, Peeked, Load;
    var f := OpcodeFetched(c, op, dev);
    var k := Peeked(c, op, dev);
    QueueOf(m, f, SKIP, BreakRest());
    DoIdleRead(f, true, COPY(AddressSource.Address(0xFFFE), IrqVecCandidate), m.irq.locked, cfg, dev);
    SkipIs(c, op, dev);
    hide BreakTail;
    DoingStep(m, l, f, SKIP, k.(pc := Next(k.pc)), [], BreakRest(), cfg, dev);
    CopyVectors(m, Cycle(m, l, cfg, dev), l);
  }

  lemma BreakBegins(run: seq<Machine>, lines: seq<Lines>, cfg: Config, dev: Device)
    requires Clocked(run, lines, cfg, dev) && Inv(run[0]) && |lines| >= 2
    requires AtFetch(run[0]) && OpcodeAt(run[0].core, dev).BRK?
    ensures var k := Peeked(run[0].core, OpcodeAt(run[0].core, dev), dev);
      && Stage(run[1], [SKIP] + BreakRest())
      && Doing(run[2], k.(pc := Next(k.pc)), BreakRest())
      && run[2].irq.current == Sample(IRQ_VECTOR, lines[0].nmi, lines[1]) && run[2].nmi.prev == lines[1].nmi
  {
    hide Cycle, Inv, Doing, OpcodeAt, BreakRest, Next, Sample, AtFetch, Stage;
    var c := run[0].core;
    ClockedAt(run, lines, 0, cfg, dev);
    ClockedAt(run, lines, 1, cfg, dev);
    BreakFetch(run[0], lines[0], cfg, dev);
    DoingStage(run[1], OpcodeFetched(c, OpcodeAt(c, dev), dev), [SKIP] + BreakRest());
    BreakSkip(run[1], lines[1], c, OpcodeAt(c, dev), cfg, dev);
  }

  lemma FetchReady(m: Machine)
    requires Inv(m) && AtFetch(m)
    ensures Ready(m.core)
  {
    hide Scheduled, StackBitsClear;
  }

  lemma FetchedReady(c: Core, op: OpType, dev: Device)
    ensures Ready(OpcodeFetched(c, op, dev)) <==> Ready(c)
  {
    hide Next;
  }

  lemma FetchEffect(c: Core, op: OpType, vec: word, cfg: Config, dev: Device)
    requires op == OpcodeAt(c, dev)
    ensures Exec(c, FetchOpcode, vec, cfg, dev) == Effect(OpcodeFetched(c, op, dev), Program(op))
  {
    hide Exec, Decode, LoadValue, Program, Next;
    IsFetch(c, NoOp, vec, cfg, dev);
  }

  lemma SkipIs(c: Core, op: OpType, dev: Device)
    ensures var f, k := OpcodeFetched(c, op, dev), Peeked(c, op, dev);
      Load(f, f.pc, dev).(pc := Next(f.pc)) == k.(pc := Next(k.pc)) && (Ready(f) ==> Ready(k.(pc := Next(k.pc))))
  {
    hide Next;
  }

  lemma BreakEnds(m: Machine, l0: Lines, l1: Lines, c: Core, cfg: Config, dev: Device)
    requires Doing(m, c, BreakTail())
    ensures var n := Cycle(m, l0, cfg, dev);
      n.dma.remaining <= DMA_CYCLES && Stage(n, [ReadVectorHigh(IrqVec, NoOp)]) && Boundary(n, cfg, dev)
    ensures var vector := m.irq.locked;
      var n := Cycle(Cycle(m, l0, cfg, dev), l1, cfg, dev);
      n.core == VectorHigh(VectorLow(c, vector, dev), vector, dev) && Between(n) && n.dma.remaining == 0 && Ready(n.core)
  {
    hide Exec, Cycle, Ready, VectorLow, VectorHigh, Between, ReadVectorLow, ReadVectorHigh, Stage;
    var vector := m.irq.locked;
    var low, high := ReadVectorLow(IrqVec), ReadVectorHigh(IrqVec, NoOp);
    QueueOf(m, c, low, [high]);
    DoVectorLow(c, IrqVec, vector, vector, cfg, dev);
    var d := VectorLow(c, vector, dev);
    VectorReady(c, vector, dev);
    PlainCallbacks(m);
    DoingStep(m, l0, c, low, d, [], [high], cfg, dev);
    var n := Cycle(m, l0, cfg, dev);
    DoingStage(n, d, [high]);
    QueueOf(n, d, high, []);
    DoVectorHigh(d, IrqVec, vector, NoOp, vector, cfg, dev);
    CycleStep(n, l1, cfg, dev);
    HighReady(d, vector, dev);
    ReadySettled(Cycle(n, l1, cfg, dev), VectorHigh(d, vector, dev));
  }

  lemma HighReady(c: Core, vector: word, dev: Device)
    ensures Ready(VectorHigh(c, vector, dev)) <==> Ready(c)
  {
    hide WithHigh, AddLow;
  }

  lemma PlainCallbacks(m: Machine)
    requires m.cur == ReadVectorLow(IrqVec)
    ensures CalledIrq(m.irq, m.core, CallbackOf(m.cur)) == m.irq
  {
  }

  /** What is being done after each of the first six cycles. */
  ghost predicate BreakStages(run: seq<Machine>)
    requires |run| > 6
  {
    && Stage(run[1], [SKIP] + BreakRest()) && Stage(run[2], BreakRest())
    && Stage(run[3], [StackPush(Source.PCL, NoOp)] + ([PUSH_STATUS] + BreakTail()))
    && Stage(run[4], [PUSH_STATUS] + BreakTail()) && Stage(run[5], BreakTail())
    && Stage(run[6], [ReadVectorHigh(IrqVec, NoOp)])
  }

  lemma BreakCycles(run: seq<Machine>, lines: seq<Lines>, cfg: Config, dev: Device)
    requires Clocked(run, lines, cfg, dev) && Inv(run[0]) && |lines| == 7
    requires AtFetch(run[0]) && OpcodeAt(run[0].core, dev).BRK?
    ensures run[7].core == BreakInstruction(run[0].core, OpcodeAt(run[0].core, dev), BreakVector(lines), dev).core
    ensures Between(run[7]) && run[7].dma.remaining == 0 && Ready(run[7].core)
    ensures BreakStages(run) && run[6].dma.remaining <= DMA_CYCLES && Boundary(run[6], cfg, dev)
  {
    hide Exec, Cycle, Inv, Ready, Decode, LoadValue, BreakTail, Next, Between, ReturnPushed, VectorLow, VectorHigh,
      Vectored, StatusBrk, Sample, Stage, Boundary;
    var c := run[0].core;
    var op := OpcodeAt(c, dev);
    var k := Peeked(c, op, dev);
    var d := k.(pc := Next(k.pc));
    BreakBegins(run, lines, cfg, dev);
    BreakClocked(run, lines, cfg, dev);
    TailNonempty();
    DoingStage(run[2], d, BreakRest());
    BreakPushes(run[2], lines[2], lines[3], lines[4], d, BreakTail(), cfg, dev);
    DoingStage(run[5], ReturnPushed(d, StatusBrk(d.p)), BreakTail());
    BreakEnds(run[5], lines[5], lines[6], ReturnPushed(d, StatusBrk(d.p)), cfg, dev);
    VectoredIs(d, StatusBrk(d.p), BreakVector(lines), dev);
  }

  /** BRK takes seven cycles and returns behind the byte after it; its vector is decided in its fourth cycle. */
  lemma BreakRefined(run: seq<Machine>, lines: seq<Lines>, cfg: Config, dev: Device)
    requires Clocked(run, lines, cfg, dev) && Inv(run[0]) && |lines| == 7
    requires AtFetch(run[0]) && OpcodeAt(run[0].core, dev).BRK?
    ensures run[7].core == BreakInstruction(run[0].core, OpcodeAt(run[0].core, dev), BreakVector(lines), dev).core
    ensures Between(run[7]) && run[7].dma.remaining == 0
  {
    hide Cycle, Inv, AtFetch, Decode, LoadValue, Between, BreakStages, Boundary;
    BreakCycles(run, lines, cfg, dev);
  }

  lemma TailNonempty()
    ensures BreakTail() != []
  {
  }

  lemma BreakClocked(run: seq<Machine>, lines: seq<Lines>, cfg: Config, dev: Device)
    requires Clocked(run, lines, cfg, dev) && |lines| == 7
    ensures |run| == 8 && forall i {:trigger run[i]} :: 0 <= i < 7 ==> run[i].dma.remaining <= DMA_CYCLES
    ensures run[3] == Cycle(run[2], lines[2], cfg, dev) && run[4] == Cycle(run[3], lines[3], cfg, dev)
    ensures run[5] == Cycle(run[4], lines[4], cfg, dev) && run[6] == Cycle(run[5], lines[5], cfg, dev)
    ensures run[7] == Cycle(run[6], lines[6], cfg, dev)
  {
    hide Cycle;
    forall i {:trigger run[i]} | 0 <= i < 7
      ensures run[i].dma.remaining <= DMA_CYCLES
    {
      ClockedAt(run, lines, i, cfg, dev);
    }
    ClockedAt(run, lines, 2, cfg, dev);
    ClockedAt(run, lines, 3, cfg, dev);
    ClockedAt(run, lines, 4, cfg, dev);
    ClockedAt(run, lines, 5, cfg, dev);
    ClockedAt(run, lines, 6, cfg, dev);
  }

  /**
   BRK followed by any code that leaves the stack frame alone and ends in RTI goes on two bytes behind
   the BRK, with the stack pointer and status it had.
   */
  lemma BreakReturns(run: seq<Machine>, lines: seq<Lines>, n: nat, cfg: Config, dev: Device)
    requires Clocked(run, lines, cfg, dev) && Inv(run[0]) && |lines| == 7 + n + 6
    requires AtFetch(run[0]) && OpcodeAt(run[0].core, dev).BRK?
    requires AtFetch(run[7 + n]) && OpcodeAt(run[7 + n].core, dev).RTI?
    requires StackRam(dev) && FrameKept(run[7].core, run[7 + n].core, run[0].core.sp)
    ensures var c, end := run[0].core, run[7 + n + 6].core;
      end.pc == Plus(c.pc, 2) && end.sp == c.sp && end.p == c.p
  {
    hide Cycle, Decode, LoadValue, Between, StackRam, Scheduled, StackBitsClear, FrameKept, Holding, HoldingStatus,
      StatusBrk, StatusPulled, Vectored, ReturnFromInterrupt, ReturnInstruction, Dec, Plus, Next, BreakVector;
    var c := run[0].core;
    var op := OpcodeAt(c, dev);
    BreakInRun(run, lines, cfg, dev);
    var e, d := run[7].core, run[7 + n].core;
    var k := Peeked(c, op, dev);
    var pc := Next(k.pc);
    VectoredHeld(k.(pc := pc), StatusBrk(c.p), BreakVector(lines[..7]), dev);
    FrameHolds(e, d, c.sp, pc, StatusBrk(c.p));
    FrameSp(e, d, c.sp);
    TakesBackInterrupt(d, OpcodeAt(d, dev), c.sp, pc, StatusBrk(c.p), dev);
    StatusBack(c.p);
    Lengths(c.pc);
    ReturnsAtEnd(run, lines, 7 + n, cfg, dev);
  }

  lemma BreakInRun(run: seq<Machine>, lines: seq<Lines>, cfg: Config, dev: Device)
    requires Clocked(run, lines, cfg, dev) && Inv(run[0]) && |lines| >= 7
    requires AtFetch(run[0]) && OpcodeAt(run[0].core, dev).BRK?
    ensures run[7].core == BreakInstruction(run[0].core, OpcodeAt(run[0].core, dev), BreakVector(lines[..7]), dev).core
  {
    hide Cycle, Inv, AtFetch, Decode, LoadValue, BreakInstruction, Between, BreakVector;
    ClockedPrefix(run, lines, 7, cfg, dev);
    assert run[..8][0] == run[0] && run[..8][7] == run[7];
    BreakRefined(run[..8], lines[..7], cfg, dev);
  }

  // --- the NMI that took BRK over

  /** An NMI edge was seen and its sequence has not started. */
  predicate Owed(m: Machine) {
    m.nmi.detected || m.nmi.pending
  }

  lemma NmiTaken(m: Machine)
    requires m.queue == []
    ensures m.nmi.pending <==> [Advance(m).cur] + Advance(m).queue == InterruptProgram(NMI_VECTOR)
  {
    hide IrqDue;
    SequencesDiffer();
    var a, n := [Advance(m).cur] + Advance(m).queue, InterruptProgram(NMI_VECTOR);
    if m.nmi.pending {
      assert a == n;
    } else if IrqDue(m) {
      assert a == InterruptProgram(IRQ_VECTOR);
    } else {
      assert a[0] == FetchOpcode;
    }
  }

  lemma SequencesDiffer()
    ensures InterruptProgram(NMI_VECTOR) != InterruptProgram(IRQ_VECTOR)
    ensures forall v :: InterruptProgram(v)[0] != FetchOpcode
  {
    assert InterruptProgram(NMI_VECTOR)[5] != InterruptProgram(IRQ_VECTOR)[5];
  }

  /** A cycle outside interrupt sequences: what is owed becomes pending, and starts when an instruction ends. */
  lemma OwedStep(m: Machine, l: Lines, cfg: Config, dev: Device)
    requires Inv(m) && m.dma.remaining == 0 && Ready(m.core) && !m.irq.inIrq && !m.cur.BranchIncrement?
    ensures var n := Cycle(m, l, cfg, dev);
      && Inv(n) && n.nmi.prev == l.nmi
      && (!Boundary(m, cfg, dev) ==> Owed(n) == (Owed(m) || Rising(m, l)) && (n.dma.remaining == 0 ==> !n.irq.inIrq))
      && (Boundary(m, cfg, dev) ==> (Owed(m) <==> [n.cur] + n.queue == InterruptProgram(NMI_VECTOR)))
  {
    hide Exec, Inv, CalledIrq, Advance, InterruptProgram, Sampled, DmaStarted;
    CycleInv(m, l, cfg, dev);
    NmiStep(m, Clock(l), cfg, dev);
    var t := m.(dma := m.dma.(readCycle := !m.dma.readCycle));
    var p := Polled(t);
    var x := Executed(p, cfg, dev);
    var d := Sampled(DmaStarted(x), l);
    assert p.nmi.pending == Owed(m) && !p.irq.inIrq && p.cur == m.cur && p.core == m.core;
    StagesKeepNmi(p, l, cfg, dev);
    CallKeepsOutside(p.irq, p.core, CallbackOf(p.cur));
    StartedOutside(x, l);
    assert x.queue == m.queue + CpuRuns.Pushed(m, cfg, dev);
    AdvanceKeepsDma(d);
    if Boundary(m, cfg, dev) {
      NmiTaken(d);
    } else {
      AdvanceKeepsOutside(d);
    }
  }

  lemma StageInside(m: Machine, op: MicroOp, rest: seq<MicroOp>, cfg: Config, dev: Device)
    requires Stage(m, [op] + rest) && rest != []
    ensures m.cur == op && m.dma.remaining == 0 && Ready(m.core) && !Boundary(m, cfg, dev)
  {
    hide Ready, CpuRuns.Pushed;
    assert ([m.cur] + m.queue)[0] == m.cur && ([op] + rest)[0] == op;
    assert |[m.cur] + m.queue| == |[op] + rest|;
  }

  /** The stages of BRK that are not its last are inside one instruction, and none of them is a branch. */
  lemma BreakInside(run: seq<Machine>, k: nat, cfg: Config, dev: Device)
    requires |run| > 6 && BreakStages(run) && 1 <= k <= 6
    ensures run[k].dma.remaining == 0 && Ready(run[k].core) && !run[k].cur.BranchIncrement?
    ensures k < 6 ==> !Boundary(run[k], cfg, dev)
  {
    hide Ready, Boundary, Stage, BreakTail;
    TailNonempty();
    if k == 1 {
      StageInside(run[1], SKIP, BreakRest(), cfg, dev);
    } else if k == 2 {
      StageInside(run[2], StackPush(Source.PCH, NoOp), [StackPush(Source.PCL, NoOp)] + ([PUSH_STATUS] + BreakTail()), cfg, dev);
    } else if k == 3 {
      StageInside(run[3], StackPush(Source.PCL, NoOp), [PUSH_STATUS] + BreakTail(), cfg, dev);
    } else if k == 4 {
      StageInside(run[4], PUSH_STATUS, BreakTail(), cfg, dev);
    } else if k == 5 {
      TailSplit();
      StageInside(run[5], ReadVectorLow(IrqVec), [ReadVectorHigh(IrqVec, NoOp)], cfg, dev);
    } else {
      LastStage(run[6]);
    }
  }

  lemma TailSplit()
    ensures BreakTail() == [ReadVectorLow(IrqVec)] + [ReadVectorHigh(IrqVec, NoOp)]
  {
  }

  lemma LastStage(m: Machine)
    requires Stage(m, [ReadVectorHigh(IrqVec, NoOp)])
    ensures m.dma.remaining == 0 && Ready(m.core) && m.cur.ReadAbsolute?
  {
    hide Ready;
    assert ([m.cur] + m.queue)[0] == m.cur;
  }

  lemma FetchInside(m: Machine, cfg: Config, dev: Device)
    requires Inv(m) && AtFetch(m)
    ensures Ready(m.core) && !Boundary(m, cfg, dev)
  {
    hide Scheduled, StackBitsClear, ExecFetchOpcode, Loadable;
    FetchSchedules(m.core, dev);
    NothingLoadable();
    assert Exec(m.core, m.cur, m.irq.locked, cfg, dev) == ExecFetchOpcode(m.core, dev);
  }

  lemma NothingLoadable()
    ensures !Loadable([])
  {
  }

  /** The NMI line rises in cycle `i`. */
  predicate RisesAt(prev: bool, lines: seq<Lines>, i: nat)
    requires i < |lines|
  {
    lines[i].nmi && !(if i == 0 then prev else lines[i - 1].nmi)
  }

  /** What is owed after `k` cycles of BRK. */
  lemma {:induction false} OwedDuring(run: seq<Machine>, lines: seq<Lines>, k: nat, cfg: Config, dev: Device)
    requires Clocked(run, lines, cfg, dev) && Inv(run[0]) && |lines| == 7 && k <= 6
    requires AtFetch(run[0]) && BreakStages(run) && !run[0].irq.inIrq
    ensures Inv(run[k]) && !run[k].irq.inIrq && (k > 0 ==> run[k].nmi.prev == lines[k - 1].nmi)
    ensures Owed(run[k]) <==>
              Owed(run[0]) || exists i {:trigger RisesAt(run[0].nmi.prev, lines, i)} :: 0 <= i < k && RisesAt(run[0].nmi.prev, lines, i)
    decreases k
  {
    hide Cycle, Inv, Ready, Boundary, BreakStages, Owed;
    if k > 0 {
      OwedDuring(run, lines, k - 1, cfg, dev);
      ClockedAt(run, lines, k - 1, cfg, dev);
      if k == 1 {
        FetchInside(run[0], cfg, dev);
      } else {
        BreakInside(run, k - 1, cfg, dev);
      }
      OwedStep(run[k - 1], lines[k - 1], cfg, dev);
      BreakInside(run, k, cfg, dev);
      assert Rising(run[k - 1], lines[k - 1]) == RisesAt(run[0].nmi.prev, lines, k - 1);
    }
  }

  /**
   An NMI sequence starts right behind BRK exactly if one was owed when the BRK was fetched or the line rises in
   one of its first six cycles, whether or not BRK itself already went through the vector of NMI.
   */
  lemma NmiBehindBreak(run: seq<Machine>, lines: seq<Lines>, cfg: Config, dev: Device)
    requires Clocked(run, lines, cfg, dev) && Inv(run[0]) && |lines| == 7
    requires AtFetch(run[0]) && OpcodeAt(run[0].core, dev).BRK? && !run[0].irq.inIrq
    ensures Inv(run[7])
    ensures [run[7].cur] + run[7].queue == InterruptProgram(NMI_VECTOR)
       <==> Owed(run[0]) || exists i {:trigger RisesAt(run[0].nmi.prev, lines, i)} :: 0 <= i < 6 && RisesAt(run[0].nmi.prev, lines, i)
  {
    hide Cycle, Inv, Ready, Boundary, BreakStages, Owed, AtFetch, OpcodeAt, InterruptProgram, BreakVector, RisesAt;
    BreakCycles(run, lines, cfg, dev);
    OwedDuring(run, lines, 6, cfg, dev);
    BreakInside(run, 6, cfg, dev);
    ClockedAt(run, lines, 6, cfg, dev);
    OwedStep(run[6], lines[6], cfg, dev);
  }

  /** The bus answers the reads of the NMI vector the same every time, as a ROM does. */
  ghost predicate VectorRom(dev: Device) {
    forall log, more: seq<Access> {:trigger dev(log, NMI_VECTOR), dev(more, NMI_VECTOR)}
      {:trigger dev(log, AddLow(NMI_VECTOR, 1)), dev(more, AddLow(NMI_VECTOR, 1))} ::
      dev(log, NMI_VECTOR) == dev(more, NMI_VECTOR) && dev(log, AddLow(NMI_VECTOR, 1)) == dev(more, AddLow(NMI_VECTOR, 1))
  }

  /**
   So the NMI that takes BRK over is not used up by it.  Before the first instruction of its handler, the handler is
   entered again for the same edge: the second time it returns to its own first instruction.
   */
  lemma TakenTwice(run: seq<Machine>, lines: seq<Lines>, cfg: Config, dev: Device)
    requires Clocked(run, lines, cfg, dev) && Inv(run[0]) && |lines| == 14 && VectorRom(dev)
    requires AtFetch(run[0]) && OpcodeAt(run[0].core, dev).BRK? && !run[0].irq.inIrq
    requires BreakVector(lines) == NMI_VECTOR
    ensures AtInterrupt(run[7], NMI_VECTOR) && Between(run[14])
    ensures run[7].core == BreakInstruction(run[0].core, OpcodeAt(run[0].core, dev), NMI_VECTOR, dev).core
    ensures run[14].core == InterruptEntry(run[7].core, NMI_VECTOR, dev).core
    ensures run[14].core.pc == run[7].core.pc && Holding(run[14].core.log, run[7].core.sp, run[7].core.pc)
  {
    hide Cycle, Inv, Ready, Boundary, Owed, AtFetch, OpcodeAt, InterruptProgram, Between, VectorRom, Holding, Vectored,
      BreakInstruction, InterruptEntry;
    var first, second := run[..8], run[7..];
    ClockedPrefix(run, lines, 7, cfg, dev);
    ClockedSuffix(run, lines, 7, cfg, dev);
    assert first[0] == run[0] && first[7] == run[7] && second[0] == run[7] && second[7] == run[14];
    VectorPrefix(lines, run[0].nmi.prev);
    BreakCycles(first, lines[..7], cfg, dev);
    NmiBehindBreak(first, lines[..7], cfg, dev);
    ReadyRuns(run[7].core);
    InterruptEntered(second, lines[7..], NMI_VECTOR, cfg, dev);
    EntersAgain(run[0].core, OpcodeAt(run[0].core, dev), dev);
  }

  lemma ReadyRuns(c: Core)
    requires Ready(c)
    ensures !c.halted
  {
  }

  /** The edge that took BRK over is one of those in its first six cycles. */
  lemma VectorPrefix(lines: seq<Lines>, prev: bool)
    requires |lines| >= 7 && BreakVector(lines) == NMI_VECTOR
    ensures BreakVector(lines[..7]) == NMI_VECTOR
    ensures exists i {:trigger RisesAt(prev, lines[..7], i)} :: 0 <= i < 6 && RisesAt(prev, lines[..7], i)
  {
    assert BreakVector(lines[..7]) == BreakVector(lines) by {
      hide Sample;
    }
    hide BreakVector;
    TakenOver(lines[..7]);
    var k :| 1 <= k <= 3 && EdgeAt(lines[..7], k);
    assert RisesAt(prev, lines[..7], k);
  }

  lemma EntersAgain(c: Core, op: OpType, dev: Device)
    requires VectorRom(dev)
    ensures var b := BreakInstruction(c, op, NMI_VECTOR, dev).core;
      var e := InterruptEntry(b, NMI_VECTOR, dev).core;
      e.pc == b.pc && Holding(e.log, b.sp, b.pc)
  {
    hide Vectored, VectorRom, Holding, HoldingStatus, StatusBrk, StatusIrq, Next, Look;
    var k := Peeked(c, op, dev);
    var d := k.(pc := Next(k.pc));
    var b := BreakInstruction(c, op, NMI_VECTOR, dev).core;
    var f := b.(log := Look(Look(b.log, b.pc, dev), b.pc, dev));
    VectoredHeld(f, StatusIrq(b.p), NMI_VECTOR, dev);
    SameVector(d, StatusBrk(c.p), f, StatusIrq(b.p), dev);
  }

  lemma SameVector(c: Core, status: byte, d: Core, other: byte, dev: Device)
    requires VectorRom(dev)
    ensures Vectored(c, status, NMI_VECTOR, dev).pc == Vectored(d, other, NMI_VECTOR, dev).pc
  {
    hide Pair, InstructionSet.Pushed, High, Low, AddLow;
    var s, t := ReturnPushed(c, status).log, ReturnPushed(d, other).log;
    var l, m := Look(s, NMI_VECTOR, dev), Look(t, NMI_VECTOR, dev);
    assert dev(s, NMI_VECTOR) == dev(t, NMI_VECTOR);
    assert dev(l, AddLow(NMI_VECTOR, 1)) == dev(m, AddLow(NMI_VECTOR, 1));
  }
}
