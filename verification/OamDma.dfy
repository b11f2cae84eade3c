/** The transfer of a page to the sprite memory that a store to $4014 starts. */
module OamDma {
  import opened Bits
  import opened CpuTypes
  import opened CpuExec
  import opened CpuMachine
  import opened CpuSafety
  import opened CpuCorrectness
  import opened CpuReturns
  import opened InstructionSet

  /** The bus accesses of the first `n` bytes: each is read from the page and passed on. */
  function CopiedLog(log: seq<Access>, page: byte, n: nat, dev: Device): seq<Access>
    requires n <= 256
  {
    if n == 0 then log
    else
      var l := CopiedLog(log, page, n - 1, dev);
      var a := DmaAddress(page, n - 1);
      Look(l, a, dev) + [Stored(OAM_ADDRESS, dev(l, a))]
  }

  /** Byte `i` as the transfer reads it. */
  function CopiedByte(log: seq<Access>, page: byte, i: nat, dev: Device): byte
    requires i < 256
  {
    dev(CopiedLog(log, page, i, dev), DmaAddress(page, i))
  }

  /** The accesses before the copy: one read at the operand latch, or two to get onto a read cycle. */
  function Aligned(c: Core, readCycle: bool, dev: Device): seq<Access> {
    var l := Look(c.log, Pair(c.hi, c.lo), dev);
    if readCycle then l else Look(l, Pair(c.hi, c.lo), dev)
  }

  /** The cycles the CPU stalls. */
  function StallCycles(readCycle: bool): nat {
    if readCycle then 513 else 514
  }

  /** The registers but the data latch and the log. */
  predicate Undisturbed(c: Core, d: Core) {
    d == c.(db := d.db, log := d.log)
  }

  /** A machine in the middle of a DMA that started in machine `m`. */
  predicate Copying(n: Machine, m: Machine, remaining: nat, readCycle: bool, log: seq<Access>) {
    && n.dma == Dma(remaining, readCycle) && Undisturbed(m.core, n.core) && n.core.log == log
    && n.cur == m.cur && n.queue == m.queue && n.nmi == m.nmi
    && !n.core.halted
    && n.irq == if remaining == 0 then m.irq.(inIrq := false) else m.irq
  }

  // --- single cycles

  lemma StallIs(m: Machine, lines: Lines, cfg: Config, dev: Device)
    requires 1 <= m.dma.remaining <= DMA_CYCLES && !m.core.halted
    ensures Cycle(m, lines, cfg, dev) == DmaCycle(m.(dma := m.dma.(readCycle := !m.dma.readCycle)), cfg, dev)
  {
    hide DmaCycle;
  }

  lemma IdleCycle(m: Machine, n: Machine, log: seq<Access>, lines: Lines, cfg: Config, dev: Device)
    requires n.dma.remaining == DMA_CYCLES || (n.dma.remaining == DMA_CYCLES - 1 && n.dma.readCycle)
    requires Copying(n, m, n.dma.remaining, n.dma.readCycle, log)
    ensures Copying(Cycle(n, lines, cfg, dev), m, n.dma.remaining - 1, !n.dma.readCycle, Look(log, Pair(m.core.hi, m.core.lo), dev))
  {
    hide Pair, DmaIdle, DmaTransfer, Cycle;
    StallIs(n, lines, cfg, dev);
    var t := n.(dma := n.dma.(readCycle := !n.dma.readCycle));
    DmaIdleEffect(t, cfg, dev);
  }

  lemma ReadCycle(m: Machine, n: Machine, i: nat, log: seq<Access>, lines: Lines, cfg: Config, dev: Device)
    requires i < 256 && Copying(n, m, n.dma.remaining, n.dma.readCycle, log)
    requires n.dma.remaining == 512 - 2 * i || (i == 0 && n.dma.remaining == DMA_CYCLES - 1 && !n.dma.readCycle)
    ensures var a := DmaAddress(m.core.page, i);
      var x := Cycle(n, lines, cfg, dev);
      Copying(x, m, 511 - 2 * i, !n.dma.readCycle, Look(log, a, dev)) && x.core.db == dev(log, a)
  {
    hide Pair, DmaIdle, DmaTransfer, Cycle, DmaAddress;
    StallIs(n, lines, cfg, dev);
    var t := n.(dma := Dma(512 - 2 * i, !n.dma.readCycle));
    DmaReadEffect(t, cfg, dev);
    assert 256 - t.dma.remaining / 2 == i;
  }

  lemma WriteCycle(m: Machine, n: Machine, i: nat, log: seq<Access>, lines: Lines, cfg: Config, dev: Device)
    requires i < 256 && Copying(n, m, 511 - 2 * i, n.dma.readCycle, log)
    ensures var x := Cycle(n, lines, cfg, dev);
      Copying(x, m, 510 - 2 * i, !n.dma.readCycle, log + [Stored(OAM_ADDRESS, n.core.db)]) && x.core.db == n.core.db
  {
    hide DmaIdle, DmaTransfer, Cycle;
    StallIs(n, lines, cfg, dev);
    DmaWriteEffect(n.(dma := n.dma.(readCycle := !n.dma.readCycle)), cfg, dev);
  }

  // --- the whole transfer

  lemma {:induction false} CopiesBytes(run: seq<Machine>, lines: seq<Lines>, m: Machine, start: nat, k: nat, log: seq<Access>,
                                       cfg: Config, dev: Device)
    requires Clocked(run, lines, cfg, dev) && k <= 256 && start + 2 * k <= |lines|
    requires Copying(run[start], m, run[start].dma.remaining, run[start].dma.readCycle, log)
    requires run[start].dma.remaining == 512 || (run[start].dma.remaining == 513 && !run[start].dma.readCycle)
    ensures k > 0 ==> Copying(run[start + 2 * k], m, 512 - 2 * k, run[start].dma.readCycle, CopiedLog(log, m.core.page, k, dev))
    ensures k > 0 ==> run[start + 2 * k].core.db == CopiedByte(log, m.core.page, k - 1, dev)
    ensures forall j {:trigger run[j]} :: start <= j < start + 2 * k ==> run[j].dma.remaining > 0
    decreases k
  {
    hide Cycle, Copying, DmaAddress, Look;
    if k > 0 {
      CopiesBytes(run, lines, m, start, k - 1, log, cfg, dev);
      var j := start + 2 * (k - 1);
      var n := run[j];
      var l := CopiedLog(log, m.core.page, k - 1, dev);
      if k > 1 {
        CopyingDma(n, m, 512 - 2 * (k - 1), run[start].dma.readCycle, l);
      }
      ClockedAt(run, lines, j, cfg, dev);
      ClockedAt(run, lines, j + 1, cfg, dev);
      ReadCycle(m, n, k - 1, l, lines[j], cfg, dev);
      var x := run[j + 1];
      var a := DmaAddress(m.core.page, k - 1);
      CopyingDma(x, m, 511 - 2 * (k - 1), !n.dma.readCycle, Look(l, a, dev));
      WriteCycle(m, x, k - 1, Look(l, a, dev), lines[j + 1], cfg, dev);
    }
  }

  lemma CopyingDma(n: Machine, m: Machine, remaining: nat, readCycle: bool, log: seq<Access>)
    requires Copying(n, m, remaining, readCycle, log)
    ensures n.dma == Dma(remaining, readCycle)
  {
  }

  lemma Aligns(run: seq<Machine>, lines: seq<Lines>, cfg: Config, dev: Device) returns (start: nat)
    requires Clocked(run, lines, cfg, dev) && |lines| >= 2
    requires run[0].dma.remaining == DMA_CYCLES && !run[0].core.halted
    ensures var r := run[0].dma.readCycle;
      && start == (if r then 1 else 2) && Copying(run[start], run[0], 514 - start, false, Aligned(run[0].core, r, dev))
      && run[1].dma.remaining > 0
  {
    hide Cycle, Pair;
    var m := run[0];
    ClockedAt(run, lines, 0, cfg, dev);
    ClockedAt(run, lines, 1, cfg, dev);
    IdleCycle(m, m, m.core.log, lines[0], cfg, dev);
    if m.dma.readCycle {
      start := 1;
    } else {
      start := 2;
      IdleCycle(m, run[1], Look(m.core.log, Pair(m.core.hi, m.core.lo), dev), lines[1], cfg, dev);
    }
  }

  /**
   The CPU stalls for exactly 513 or 514 cycles, depending on the parity it starts at, and in them reads
   each byte of the page once, in order, and passes it on.  Registers, queue and interrupt state are as
   before, and the last byte of the page is left in the data latch.
   */
  lemma TransfersPage(run: seq<Machine>, lines: seq<Lines>, cfg: Config, dev: Device)
    requires Clocked(run, lines, cfg, dev) && run[0].dma.remaining == DMA_CYCLES && !run[0].core.halted
    requires |lines| == StallCycles(run[0].dma.readCycle)
    ensures var m, end := run[0], run[|lines|];
      && end.dma.remaining == 0 && end.cur == m.cur && end.queue == m.queue && Undisturbed(m.core, end.core)
      && end.core.log == CopiedLog(Aligned(m.core, m.dma.readCycle, dev), m.core.page, 256, dev)
      && end.core.db == CopiedByte(Aligned(m.core, m.dma.readCycle, dev), m.core.page, 255, dev)
      && end.irq == m.irq.(inIrq := false) && end.nmi == m.nmi
    ensures forall j {:trigger run[j]} :: 0 <= j < |lines| ==> run[j].dma.remaining > 0
  {
    hide Cycle, Look, CopiedLog, Aligned;
    var m := run[0];
    var start := Aligns(run, lines, cfg, dev);
    CopiesBytes(run, lines, m, start, 256, Aligned(m.core, m.dma.readCycle, dev), cfg, dev);
  }
}
