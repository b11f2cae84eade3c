/** Whole runs of the CPU from power-on, under any device, any interrupt lines and any resets. */
module CpuRuns {
  import opened Bits
  import opened CpuTypes
  import opened CpuExec
  import opened CpuMachine
  import opened CpuSafety
  import opened Opcodes

  datatype Event = Clock(lines: Lines) | Press

  /** One event.  The `requires` is the part of the invariant that a cycle is defined by. */
  function Happen(m: Machine, e: Event, cfg: Config, dev: Device): Machine
    requires m.dma.remaining <= DMA_CYCLES
  {
    match e
    case Clock(lines) => Cycle(m, lines, cfg, dev)
    case Press => Reset(m)
  }

  lemma HappenInv(m: Machine, e: Event, cfg: Config, dev: Device)
    requires Inv(m)
    ensures Inv(Happen(m, e, cfg, dev))
  {
    hide StackBitsClear, Scheduled, Cycle, ResetProgram;
    if e.Clock? {
      CycleInv(m, e.lines, cfg, dev);
    } else {
      ResetScheduled();
    }
  }

  lemma PowerOnInv()
    ensures Inv(PowerOn())
  {
    hide Decode;
    FetchScheduled();
    assert StackBitsClear(0x04);
  }

  /** A run: every state follows from the one before by its event. */
  ghost predicate Run(run: seq<Machine>, events: seq<Event>, cfg: Config, dev: Device) {
    && |run| == |events| + 1
    && run[0] == PowerOn()
    && (forall i {:trigger events[i]} :: 0 <= i < |events| ==>
          run[i].dma.remaining <= DMA_CYCLES && run[i + 1] == Happen(run[i], events[i], cfg, dev))
  }

  lemma {:induction false} RunInv(run: seq<Machine>, events: seq<Event>, cfg: Config, dev: Device, i: nat)
    requires Run(run, events, cfg, dev) && i < |run|
    ensures Inv(run[i])
  {
    hide Inv, Happen, PowerOn;
    if i == 0 {
      PowerOnInv();
    } else {
      RunInv(run, events, cfg, dev, i - 1);
      assert events[i - 1] == events[i - 1];
      HappenInv(run[i - 1], events[i - 1], cfg, dev);
    }
  }

  /** The machine executes a micro-operation in this event. */
  predicate Executes(m: Machine, e: Event) {
    e.Clock? && !m.core.halted && m.dma.remaining == 0
  }

  /** What the micro-operation executed in this event schedules. */
  function Pushed(m: Machine, cfg: Config, dev: Device): seq<MicroOp> {
    Exec(m.core, m.cur, m.irq.locked, cfg, dev).push
  }

  lemma ShortQueue(m: Machine)
    requires Inv(m)
    ensures |m.queue| < CAPACITY
  {
    hide Orderly, Extra;
  }

  /**
   In every reachable state the opcode fetch is current only with an empty queue, work is scheduled only
   behind an empty queue, the queue never holds more than its eight slots, and the two status bits that
   only exist on the stack are clear.
   */
  lemma QueueNeverOverflows(run: seq<Machine>, events: seq<Event>, cfg: Config, dev: Device, i: nat)
    requires Run(run, events, cfg, dev) && i < |run|
    ensures var m := run[i];
      && (m.cur.FetchOpcode? ==> m.queue == [])
      && m.core.p & 0x30 == 0
      && |m.queue| < CAPACITY
      && (!m.core.halted && m.dma.remaining == 0 ==>
            (Pushed(m, cfg, dev) != [] ==> m.queue == []) && |m.queue| + |Pushed(m, cfg, dev)| <= CAPACITY)
  {
    hide Exec, Executed, DmaStarted, Mid, Budget, PowerOn, Happen;
    RunInv(run, events, cfg, dev, i);
    ShortQueue(run[i]);
    if run[i].dma.remaining == 0 {
      ExecutedMid(run[i], cfg, dev);
    }
  }

  // --- instructions end

  /** The event leaves the instruction or sequence that was running. */
  predicate Boundary(m: Machine, cfg: Config, dev: Device) {
    m.queue + Pushed(m, cfg, dev) == []
  }

  lemma ExecutingShortens(m: Machine, e: Event, cfg: Config, dev: Device)
    requires Inv(m) && Executes(m, e)
    ensures var n := Happen(m, e, cfg, dev);
      Inv(n) && (Boundary(m, cfg, dev) || Budget(n.cur, n.queue) < Budget(m.cur, m.queue))
  {
    hide StackBitsClear, Scheduled, Budget, Polled, DmaStarted, Sampled, Advance, Exec, CalledIrq;
    var t := m.(dma := m.dma.(readCycle := !m.dma.readCycle));
    PolledInv(t);
    var x := Executed(Polled(t), cfg, dev);
    assert x.queue == m.queue + Pushed(m, cfg, dev);
    ExecutedMid(Polled(t), cfg, dev);
    StartedQueue(x);
    SampledMid(DmaStarted(x), e.lines, Budget(t.cur, t.queue));
    SampledQueue(DmaStarted(x), e.lines);
    AdvanceInv(Sampled(DmaStarted(x), e.lines), Budget(t.cur, t.queue));
  }

  lemma StartedQueue(m: Machine)
    ensures DmaStarted(m).queue == m.queue
  {
  }

  lemma SampledQueue(m: Machine, lines: Lines)
    ensures Sampled(m, lines).queue == m.queue
  {
  }

  lemma WaitingKeeps(m: Machine, e: Event, cfg: Config, dev: Device)
    requires Inv(m) && e.Clock? && !Executes(m, e)
    ensures var n := Happen(m, e, cfg, dev);
      n.cur == m.cur && n.queue == m.queue && n.nmi == m.nmi
  {
    hide StackBitsClear, Scheduled, DmaCycle;
    if !m.core.halted {
      DmaCycleInv(m.(dma := m.dma.(readCycle := !m.dma.readCycle)), cfg, dev);
    }
  }

  /** The micro-operations executed in events `i` to `j`. */
  function Executions(run: seq<Machine>, events: seq<Event>, i: nat, j: nat): nat
    requires i <= j <= |events| < |run|
  {
    if i == j then 0
    else Executions(run, events, i, j - 1) + if Executes(run[j - 1], events[j - 1]) then 1 else 0
  }

  /** No event from `i` to `j` is a reset or ends an instruction. */
  ghost predicate InsideOne(run: seq<Machine>, events: seq<Event>, cfg: Config, dev: Device, i: nat, j: nat)
    requires i <= j <= |events| < |run|
  {
    forall k {:trigger events[k]} :: i <= k < j ==>
      events[k].Clock? && (Executes(run[k], events[k]) ==> !Boundary(run[k], cfg, dev))
  }

  lemma {:induction false} BudgetSpent(run: seq<Machine>, events: seq<Event>, cfg: Config, dev: Device, i: nat, j: nat)
    requires Run(run, events, cfg, dev) && i <= j <= |events|
    requires InsideOne(run, events, cfg, dev, i, j)
    ensures Executions(run, events, i, j) + Budget(run[j].cur, run[j].queue) <= Budget(run[i].cur, run[i].queue)
    decreases j
  {
    hide Inv, Happen, PowerOn, Boundary, Budget, Executes;
    if i < j {
      assert events[j - 1] == events[j - 1];
      BudgetSpent(run, events, cfg, dev, i, j - 1);
      RunInv(run, events, cfg, dev, j - 1);
      if Executes(run[j - 1], events[j - 1]) {
        ExecutingShortens(run[j - 1], events[j - 1], cfg, dev);
      } else {
        WaitingKeeps(run[j - 1], events[j - 1], cfg, dev);
      }
    }
  }

  /** Every instruction and every interrupt sequence ends within eight executed micro-operations. */
  lemma InstructionsAreShort(run: seq<Machine>, events: seq<Event>, cfg: Config, dev: Device, i: nat, j: nat)
    requires Run(run, events, cfg, dev) && i <= j <= |events|
    requires InsideOne(run, events, cfg, dev, i, j)
    ensures Executions(run, events, i, j) < 8
  {
    hide Happen, PowerOn, Boundary, Executes, Orderly, StackBitsClear;
    BudgetSpent(run, events, cfg, dev, i, j);
    RunInv(run, events, cfg, dev, i);
  }

  // --- non-maskable interrupts

  /** The NMI line is sampled high after having been low. */
  predicate EdgeSeen(m: Machine, e: Event) {
    Executes(m, e) && Rising(m, e.lines)
  }

  /** An NMI sequence starts. */
  predicate NmiStarts(m: Machine, e: Event, cfg: Config, dev: Device) {
    Executes(m, e) && Boundary(m, cfg, dev) && Polled(m).nmi.pending
  }

  lemma StagesKeepNmi(m: Machine, lines: Lines, cfg: Config, dev: Device)
    ensures Executed(m, cfg, dev).nmi == m.nmi && DmaStarted(m).nmi == m.nmi
    ensures var n := Sampled(m, lines).nmi;
      n.pending == m.nmi.pending && n.detected == (m.nmi.detected || Rising(m, lines)) && n.prev == lines.nmi
    ensures Executed(m, cfg, dev).queue == m.queue + Exec(m.core, m.cur, m.irq.locked, cfg, dev).push
  {
    hide Exec, CalledIrq;
  }

  lemma AdvanceNmi(m: Machine)
    ensures Advance(m).nmi == m.nmi.(pending := m.nmi.pending && m.queue != [])
  {
    hide InterruptProgram, IrqDue;
  }

  lemma NmiStep(m: Machine, e: Event, cfg: Config, dev: Device)
    requires Inv(m) && Executes(m, e)
    ensures var n := Happen(m, e, cfg, dev).nmi;
      && n.detected == (Polled(m).nmi.detected || EdgeSeen(m, e))
      && n.pending == (Polled(m).nmi.pending && !NmiStarts(m, e, cfg, dev))
      && n.prev == e.lines.nmi
  {
    hide Exec, Inv, Executed, DmaStarted, Sampled, Advance;
    var t := m.(dma := m.dma.(readCycle := !m.dma.readCycle));
    var p := Polled(t);
    assert p.nmi == Polled(m).nmi && p.core == m.core && p.cur == m.cur && p.queue == m.queue && p.irq.locked == m.irq.locked;
    assert p.nmi.prev == m.nmi.prev;
    var x := Executed(p, cfg, dev);
    var d := DmaStarted(x);
    StagesKeepNmi(p, e.lines, cfg, dev);
    StagesKeepNmi(x, e.lines, cfg, dev);
    StagesKeepNmi(d, e.lines, cfg, dev);
    StartedQueue(x);
    SampledQueue(d, e.lines);
    AdvanceNmi(Sampled(d, e.lines));
  }

  function Count(b: bool): nat { if b then 1 else 0 }

  function Edges(run: seq<Machine>, events: seq<Event>, i: nat): nat
    requires i <= |events| < |run|
  {
    if i == 0 then 0 else Edges(run, events, i - 1) + Count(EdgeSeen(run[i - 1], events[i - 1]))
  }

  function NmiSequences(run: seq<Machine>, events: seq<Event>, cfg: Config, dev: Device, i: nat): nat
    requires i <= |events| < |run|
  {
    if i == 0 then 0
    else NmiSequences(run, events, cfg, dev, i - 1) + Count(NmiStarts(run[i - 1], events[i - 1], cfg, dev))
  }

  /** No NMI is invented: every sequence started, and every one still owed, has its own rising edge. */
  lemma {:induction false} NoNmiInvented(run: seq<Machine>, events: seq<Event>, cfg: Config, dev: Device, i: nat)
    requires Run(run, events, cfg, dev) && i <= |events|
    ensures NmiSequences(run, events, cfg, dev, i) + Count(run[i].nmi.detected) + Count(run[i].nmi.pending)
         <= Edges(run, events, i)
  {
    hide Inv, Boundary, Executes, NmiStarts, EdgeSeen;
    if i > 0 {
      hide Happen;
      NoNmiInvented(run, events, cfg, dev, i - 1);
      RunInv(run, events, cfg, dev, i - 1);
      NmiEvent(run[i - 1], events[i - 1], cfg, dev);
      assert events[i - 1] == events[i - 1];
    }
  }

  lemma NmiEvent(m: Machine, e: Event, cfg: Config, dev: Device)
    requires Inv(m)
    ensures var n := Happen(m, e, cfg, dev).nmi;
      && Count(NmiStarts(m, e, cfg, dev)) + Count(n.detected) + Count(n.pending)
         <= Count(m.nmi.detected) + Count(m.nmi.pending) + Count(EdgeSeen(m, e))
      && (EdgeSeen(m, e) ==> n.detected)
      && (m.nmi.detected || m.nmi.pending ==> n.detected || n.pending || NmiStarts(m, e, cfg, dev))
  {
    hide Inv, Boundary, Cycle, ResetProgram;
    if e.Clock? {
      if Executes(m, e) {
        NmiStep(m, e, cfg, dev);
      } else {
        WaitingKeeps(m, e, cfg, dev);
      }
    }
  }

  /** No NMI is lost: an edge, once seen, is owed until a sequence starts. */
  lemma {:induction false} NoNmiLost(run: seq<Machine>, events: seq<Event>, cfg: Config, dev: Device, i: nat, j: nat)
    requires Run(run, events, cfg, dev) && i < j <= |events|
    requires EdgeSeen(run[i], events[i])
    requires forall k {:trigger events[k]} :: i < k < j ==> !NmiStarts(run[k], events[k], cfg, dev)
    ensures run[j].nmi.detected || run[j].nmi.pending
    decreases j
  {
    hide Inv, Happen, PowerOn, NmiStarts, EdgeSeen;
    assert events[j - 1] == events[j - 1];
    RunInv(run, events, cfg, dev, j - 1);
    NmiEvent(run[j - 1], events[j - 1], cfg, dev);
    if i < j - 1 {
      NoNmiLost(run, events, cfg, dev, i, j - 1);
    }
  }

  // --- interrupt sequences end

  lemma CallKeepsOutside(i: Irq, c: Core, cb: Callback)
    requires !i.inIrq
    ensures !CalledIrq(i, c, cb).inIrq
  {
    hide AddressOf;
  }

  lemma AdvanceKeepsOutside(m: Machine)
    requires m.queue != []
    ensures Advance(m).irq == m.irq && Advance(m).dma == m.dma
  {
  }

  lemma AdvanceKeepsDma(m: Machine)
    ensures Advance(m).dma == m.dma
  {
    hide InterruptProgram, IrqDue;
  }

  lemma StartedOutside(m: Machine, l: Lines)
    ensures var n := Sampled(DmaStarted(m), l);
      && n.irq.inIrq == (m.irq.inIrq || m.core.rdy) && n.queue == m.queue && n.nmi.pending == m.nmi.pending
      && (m.core.rdy ==> n.dma.remaining == DMA_CYCLES)
  {
  }

  /** Outside DMA, an interrupt sequence is under way only if its last micro-operation is still to come. */
  predicate Leaves(m: Machine) {
    m.irq.inIrq && m.dma.remaining == 0 ==> CallbackOf(([m.cur] + m.queue)[|m.queue|]).ExitIrq?
  }

  lemma ExitLeaves(i: Irq, c: Core, cb: Callback)
    ensures CalledIrq(i, c, cb).inIrq <==> i.inIrq && !cb.ExitIrq?
  {
    hide AddressOf;
  }

  lemma SequenceLeaves(vector: word)
    ensures var ops := InterruptProgram(vector); CallbackOf(ops[|ops| - 1]).ExitIrq? && |ops| == 7
    ensures var ops := ResetProgram(); CallbackOf(ops[|ops| - 1]).ExitIrq? && |ops| == 7
  {
  }

  lemma AdvanceLeaves(m: Machine)
    requires m.irq.inIrq && m.dma.remaining == 0 ==> m.queue != [] && CallbackOf(m.queue[|m.queue| - 1]).ExitIrq?
    ensures Leaves(Advance(m))
  {
    hide InterruptProgram, IrqDue, CallbackOf;
    SequenceLeaves(NMI_VECTOR);
    SequenceLeaves(IRQ_VECTOR);
  }

  lemma LeavesEnd(m: Machine)
    requires Leaves(m) && m.irq.inIrq && m.dma.remaining == 0
    ensures m.queue == [] ==> CallbackOf(m.cur).ExitIrq?
    ensures m.queue != [] ==> CallbackOf(m.queue[|m.queue| - 1]).ExitIrq?
  {
    hide CallbackOf;
  }

  lemma ExecutesLeaves(m: Machine, e: Event, cfg: Config, dev: Device)
    requires Inv(m) && Executes(m, e) && Leaves(m)
    ensures Leaves(Happen(m, e, cfg, dev))
  {
    hide Exec, StackBitsClear, Scheduled, CalledIrq, Advance, Sampled, DmaStarted, Leaves, CallbackOf;
    var t := m.(dma := m.dma.(readCycle := !m.dma.readCycle));
    PolledInv(t);
    var p := Polled(t);
    var x := Executed(p, cfg, dev);
    var d := Sampled(DmaStarted(x), e.lines);
    ExecutedMid(p, cfg, dev);
    ExitLeaves(p.irq, p.core, CallbackOf(p.cur));
    StartedOutside(x, e.lines);
    if m.irq.inIrq {
      LeavesEnd(m);
    }
    if d.irq.inIrq && d.dma.remaining == 0 {
      assert x.irq.inIrq && m.irq.inIrq && m.queue != [];
      assert x.queue == m.queue;
    }
    AdvanceLeaves(d);
  }

  lemma HappenLeaves(m: Machine, e: Event, cfg: Config, dev: Device)
    requires Inv(m) && Leaves(m)
    ensures Leaves(Happen(m, e, cfg, dev))
  {
    hide StackBitsClear, Scheduled, DmaCycle, CallbackOf, Cycle, Leaves;
    if e.Press? {
      PressLeaves(m);
    } else if Executes(m, e) {
      ExecutesLeaves(m, e, cfg, dev);
    } else {
      WaitingLeaves(m, e, cfg, dev);
    }
  }

  lemma PressLeaves(m: Machine)
    requires Leaves(m)
    ensures Leaves(Reset(m))
  {
    hide CallbackOf, ResetProgram;
    SequenceLeaves(0);
  }

  lemma DmaCounts(m: Machine, cfg: Config, dev: Device)
    requires 1 <= m.dma.remaining <= DMA_CYCLES
    ensures m.dma.remaining > 1 ==> DmaCycle(m, cfg, dev).dma.remaining > 0
    ensures m.dma.remaining == 1 ==> !DmaCycle(m, cfg, dev).irq.inIrq
  {
    hide Exec;
  }

  lemma WaitingLeaves(m: Machine, e: Event, cfg: Config, dev: Device)
    requires Inv(m) && Leaves(m) && e.Clock? && !Executes(m, e)
    ensures Leaves(Happen(m, e, cfg, dev))
  {
    hide StackBitsClear, Scheduled, CallbackOf, DmaCycle;
    if !m.core.halted {
      DmaCounts(m.(dma := m.dma.(readCycle := !m.dma.readCycle)), cfg, dev);
    }
  }

  /** In every run, no interrupt sequence is under way when an opcode is about to be fetched. */
  lemma {:induction false} FetchOutside(run: seq<Machine>, events: seq<Event>, cfg: Config, dev: Device, i: nat)
    requires Run(run, events, cfg, dev) && i < |run|
    ensures Leaves(run[i])
    ensures run[i].cur.FetchOpcode? && run[i].dma.remaining == 0 ==> !run[i].irq.inIrq
  {
    hide Inv, Happen, Leaves;
    if i == 0 {
      assert Leaves(PowerOn()) by { PowerOnLeaves(); }
    } else {
      FetchOutside(run, events, cfg, dev, i - 1);
      RunInv(run, events, cfg, dev, i - 1);
      assert events[i - 1] == events[i - 1];
      HappenLeaves(run[i - 1], events[i - 1], cfg, dev);
    }
    RunInv(run, events, cfg, dev, i);
    if run[i].cur.FetchOpcode? && run[i].dma.remaining == 0 {
      FetchLeaves(run[i]);
    }
  }

  lemma PowerOnLeaves()
    ensures Leaves(PowerOn())
  {
    hide Decode;
  }

  lemma FetchLeaves(m: Machine)
    requires Inv(m) && Leaves(m) && m.cur.FetchOpcode? && m.dma.remaining == 0
    ensures !m.irq.inIrq
  {
    hide Budget, StackBitsClear;
  }
}
