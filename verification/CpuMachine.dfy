/** One CPU cycle: DMA stalls, interrupt polling, one micro-operation, and the next one from the queue. */
module CpuMachine {
  import opened Bits
  import opened CpuTypes
  import opened CpuAlu
  import opened CpuExec
  import opened Opcodes

  const NMI_VECTOR: word := 0xFFFA
  const IRQ_VECTOR: word := 0xFFFE

  datatype Dma = Dma(remaining: nat, readCycle: bool)
  datatype Nmi = Nmi(detected: bool, pending: bool, prev: bool)
  datatype Irq = Irq(detected: bool, pending: bool, inIrq: bool, current: word, locked: word)

  datatype Machine = Machine(core: Core, cur: MicroOp, queue: seq<MicroOp>, dma: Dma, nmi: Nmi, irq: Irq)

  /** The interrupt lines as they stand after the bus access of a cycle. */
  datatype Lines = Lines(nmi: bool, irq: bool)

  function PowerOn(): Machine {
    Machine(Core(0, 0, 0, 0, 0, 0x04, 0, 0, 0, Decode(0), false, 0, false, false, []),
            FetchOpcode, [], Dma(0, true), Nmi(false, false, false), Irq(false, false, false, IRQ_VECTOR, 0))
  }

  // --- interrupt state

  function CallbackOf(op: MicroOp): Callback {
    match op
    case FetchOpcode | ReadPageCrossCorrupting(_) | BranchIncrement(_) | FixHiBranch(_) => NoOp
    case _ => op.cb
  }

  /** What callbacks do to the interrupt state. */
  function CalledIrq(i: Irq, c: Core, cb: Callback): Irq {
    match cb
    case LockIrqVec => i.(locked := i.current)
    case ExitIrq => i.(inIrq := false)
    case COPY(from, IrqVecCandidate) =>
      (match AddressOf(c, from, i.locked) case Some(a) => i.(current := a) case None => i)
    case _ => i
  }

  /** Interrupts are polled before every micro-operation but a branch increment and interrupt sequences. */
  predicate Polls(m: Machine) {
    !m.cur.BranchIncrement? && !m.irq.inIrq && !m.core.rdy
  }

  function Polled(m: Machine): Machine {
    if Polls(m) then
      m.(nmi := m.nmi.(pending := m.nmi.pending || m.nmi.detected, detected := false),
         irq := m.irq.(pending := m.irq.detected))
    else m
  }

  predicate Rising(m: Machine, lines: Lines) {
    lines.nmi && !m.nmi.prev
  }

  function Sampled(m: Machine, lines: Lines): Machine {
    var edge := Rising(m, lines);
    m.(nmi := m.nmi.(detected := m.nmi.detected || edge, prev := lines.nmi),
       irq := m.irq.(detected := lines.irq,
                     current := if lines.irq then IRQ_VECTOR else if edge then NMI_VECTOR else m.irq.current))
  }

  // --- the micro-operation

  function Executed(m: Machine, cfg: Config, dev: Device): Machine {
    var e := Exec(m.core, m.cur, m.irq.locked, cfg, dev);
    m.(core := e.core, queue := m.queue + e.push, irq := CalledIrq(m.irq, m.core, CallbackOf(m.cur)))
  }

  const DMA_CYCLES := 514

  function DmaStarted(m: Machine): Machine {
    if m.core.rdy then
      m.(core := m.core.(rdy := false), irq := m.irq.(inIrq := true), dma := m.dma.(remaining := DMA_CYCLES))
    else m
  }

  predicate IrqDue(m: Machine) {
    m.irq.pending && !Flag(m.core.p, IRQ_DISABLE)
  }

  function Interrupted(m: Machine, vector: word): Machine {
    var seq_ := InterruptProgram(vector);
    m.(cur := seq_[0], queue := seq_[1..], irq := m.irq.(inIrq := true, pending := false),
       nmi := m.nmi.(pending := false))
  }

  /** The next micro-operation, an interrupt sequence, or the next opcode fetch. */
  function Advance(m: Machine): Machine {
    if m.queue != [] then m.(cur := m.queue[0], queue := m.queue[1..])
    else if m.nmi.pending then Interrupted(m, NMI_VECTOR)
    else if IrqDue(m) then Interrupted(m, IRQ_VECTOR)
    else m.(cur := FetchOpcode)
  }

  // --- DMA

  function DmaIdle(m: Machine, cfg: Config, dev: Device): Machine {
    m.(core := Exec(m.core, MicroOp.Read(Latch, Target.Nowhere, NoOp), m.irq.locked, cfg, dev).core)
  }

  function DmaAddress(page: byte, index: nat): word
    requires index < 256
  {
    Pair(page, index as byte)
  }

  /** One of the last 512 DMA cycles: even counts read a byte of the page, odd counts pass it on. */
  function DmaTransfer(m: Machine, cfg: Config, dev: Device): Machine
    requires 1 <= m.dma.remaining <= 512
  {
    var r := m.dma.remaining;
    if r % 2 == 0 then
      m.(core := Exec(m.core, MicroOp.Read(AddressSource.Address(DmaAddress(m.core.page, 256 - r / 2)), Target.DataBus, NoOp),
                      m.irq.locked, cfg, dev).core)
    else
      var cb := if r == 1 then ExitIrq else NoOp;
      m.(core := Exec(m.core, MicroOp.Write(OamWrite, Source.DataBus, false, cb), m.irq.locked, cfg, dev).core,
         irq := CalledIrq(m.irq, m.core, cb))
  }

  /** The access of a DMA cycle; onto a read cycle the copy starts one cycle early. */
  function DmaAccess(m: Machine, cfg: Config, dev: Device): (n: Machine)
    requires 1 <= m.dma.remaining <= DMA_CYCLES
    ensures 1 <= n.dma.remaining <= m.dma.remaining
  {
    if m.dma.remaining == DMA_CYCLES || (m.dma.remaining == DMA_CYCLES - 1 && !m.dma.readCycle) then
      DmaIdle(m, cfg, dev)
    else
      DmaTransfer(if m.dma.remaining == DMA_CYCLES - 1 then m.(dma := m.dma.(remaining := 512)) else m, cfg, dev)
  }

  function DmaCycle(m: Machine, cfg: Config, dev: Device): Machine
    requires 1 <= m.dma.remaining <= DMA_CYCLES
  {
    var n := DmaAccess(m, cfg, dev);
    n.(dma := n.dma.(remaining := n.dma.remaining - 1))
  }

  // --- one cycle

  function Cycle(m: Machine, lines: Lines, cfg: Config, dev: Device): Machine
    requires m.dma.remaining <= DMA_CYCLES
  {
    if m.core.halted then m
    else
      var t := m.(dma := m.dma.(readCycle := !m.dma.readCycle));
      if t.dma.remaining > 0 then DmaCycle(t, cfg, dev)
      else Advance(Sampled(DmaStarted(Executed(Polled(t), cfg, dev)), lines))
  }

  /** Pressing reset, which does nothing during an interrupt sequence. */
  function Reset(m: Machine): Machine {
    if m.irq.inIrq then m
    else m.(cur := ResetProgram()[0], queue := ResetProgram()[1..], irq := m.irq.(inIrq := true))
  }
}
