/** A read-modify-write of $4014: the DMA of its first write runs before its second write. */
module CpuDmaClash {
  import opened Bits
  import opened CpuTypes
  import opened CpuAlu
  import opened CpuExec
  import opened CpuMachine
  import opened CpuSafety
  import opened CpuRuns
  import opened CpuFlow
  import opened CpuAddressing
  import opened CpuInstructions
  import opened CpuCorrectness
  import opened CpuReturns
  import opened InstructionSet
  import opened OamDma
  import opened Opcodes

  /** The byte that the first write puts back. */
  function OldByte(c: Core, op: OpType, dev: Device): byte
    requires ModifiesMemory(op)
  {
    var mode := ModifyMode(op);
    var o := Resolve(c, mode, false, dev);
    Answer(if InstructionSet.IsIndexed(mode) then Look(o.log, o.unfixed, dev) else o.log, o.addr, dev)
  }

  lemma PageWritten(c: Core, op: OpType, dev: Device)
    requires !AvoidsDma(c, op, dev)
    ensures BeforeLast(c, op, dev).page == OldByte(c, op, dev)
  {
    hide Resolve, Look, Answer, Begun, AluA, AluX, AluY, AluSp, AluP, AluDb, AluHi;
  }

  /** The write that was held up goes ahead, and asks for another DMA. */
  lemma SecondWrite(m: Machine, lines: Lines, cfg: Config, dev: Device)
    requires m.dma.remaining == 0 && HeldUp(m.(dma := m.dma.(remaining := 1)))
    ensures var n := Cycle(m, lines, cfg, dev);
      n.core == Store(m.core, DMA_ADDRESS, m.core.db).(rdy := false) && n.dma.remaining == DMA_CYCLES && Between(n)
  {
    hide Exec, Cycle, Between, TargetAddress, BusTarget;
    CycleStep(m, lines, cfg, dev);
    DoWriteNew(m.core, m.cur.to, m.cur.pre, m.irq.locked, cfg, dev);
  }

  /** A transfer does not touch the write that waits behind it. */
  lemma StillHeld(m: Machine, x: Machine)
    requires HeldUp(m) && x.cur == m.cur && x.queue == m.queue && Undisturbed(m.core, x.core)
    ensures HeldUp(x.(dma := x.dma.(remaining := 1)))
  {
    hide Pair, ZeroPage;
  }

  lemma AgreeOn(m: Core, x: Core, half: Core, left: byte)
    requires Agree(m, half.(rdy := false)) && Undisturbed(m, x) && x.db == left
    ensures var end := Store(x, DMA_ADDRESS, left).(rdy := false);
      end.log == x.log + [Stored(DMA_ADDRESS, left)] && Agree(end, half.(rdy := false, page := left, log := end.log))
  {
  }

  /**
   What a read-modify-write of $4014 does instead, where `k + 1` are its cycles.  The byte it put back is the
   page of a whole transfer; then the second write stores the last byte of that page, not the changed
   byte, and starts a second transfer, from the page with that number.
   */
  lemma DmaClobbers(run: seq<Machine>, lines: seq<Lines>, k: nat, cfg: Config, dev: Device)
    requires Clocked(run, lines, cfg, dev) && Inv(run[0]) && AtFetch(run[0])
    requires Stable(OpcodeAt(run[0].core, dev)) && !AvoidsDma(run[0].core, OpcodeAt(run[0].core, dev), dev)
    requires k + 1 == Instruction(run[0].core, OpcodeAt(run[0].core, dev), dev).cycles <= |lines|
    requires |lines| == k + StallCycles(run[k].dma.readCycle) + 1
    ensures var c, op := run[0].core, OpcodeAt(run[0].core, dev);
      var m, x, end := run[k], run[|lines| - 1], run[|lines|];
      var half, before := BeforeLast(c, op, dev), Aligned(m.core, m.dma.readCycle, dev);
      var left := CopiedByte(before, half.page, 255, dev);
      && half.page == OldByte(c, op, dev)
      && x.dma.remaining == 0 && x.core.log == CopiedLog(before, half.page, 256, dev)
      && end.core.log == x.core.log + [Stored(DMA_ADDRESS, left)]
      && Agree(end.core, half.(rdy := false, page := left, log := end.core.log))
      && end.dma.remaining == DMA_CYCLES && Between(end)
    ensures forall i {:trigger run[i]} :: k <= i < |lines| - 1 ==> run[i].dma.remaining > 0
  {
    hide Cycle, Between, Instruction, Decode, LoadValue, Resolve, HeldUp, Entry, Inv, Aligned, CopiedLog, CopiedByte, Agree,
      Store, BeforeLast, Undisturbed, OldByte;
    var c, op := run[0].core, OpcodeAt(run[0].core, dev);
    ModifyIsHeldUp(run, lines, k, cfg, dev);
    PageWritten(c, op, dev);
    var m := run[k];
    var s := StallCycles(m.dma.readCycle);
    Within(run, lines, k, k + s, cfg, dev);
    var part, times := run[k..k + s + 1], lines[k..k + s];
    HeldIs(m);
    TransfersPage(part, times, cfg, dev);
    var x := run[k + s];
    assert part[|times|] == x && part[0] == m;
    StillHeld(m, x);
    ClockedAt(run, lines, k + s, cfg, dev);
    SecondWrite(x, lines[k + s], cfg, dev);
    AgreePage(m.core, BeforeLast(c, op, dev));
    AgreeOn(m.core, x.core, BeforeLast(c, op, dev), x.core.db);
    forall i | k <= i < k + s
      ensures run[i].dma.remaining > 0
    {
      assert part[i - k] == run[i];
    }
  }

  lemma HeldIs(m: Machine)
    requires HeldUp(m)
    ensures !m.core.halted
  {
  }

  lemma AgreePage(m: Core, half: Core)
    requires Agree(m, half.(rdy := false))
    ensures m.page == half.page
  {
  }

  lemma Within(run: seq<Machine>, lines: seq<Lines>, i: nat, j: nat, cfg: Config, dev: Device)
    requires Clocked(run, lines, cfg, dev) && i <= j <= |lines|
    ensures Clocked(run[i..j + 1], lines[i..j], cfg, dev)
  {
    hide Cycle;
    var n := j + 1;
    forall k | 0 <= k < j - i
      ensures run[i..n][k].dma.remaining <= DMA_CYCLES
        && run[i..n][k + 1] == Cycle(run[i..n][k], lines[i..j][k], cfg, dev)
    {
      ClockedAt(run, lines, i + k, cfg, dev);
    }
    assert Clocked(run[i..n], lines[i..j], cfg, dev);
  }

  // --- such an instruction exists

  /** INC $4014, wherever it stands. */
  lemma IncrementOfDma(c: Core, dev: Device)
    requires forall log: seq<Access> {:trigger dev(log, c.pc)} :: dev(log, c.pc) == 0xEE
    requires forall log: seq<Access> {:trigger dev(log, Next(c.pc))} :: dev(log, Next(c.pc)) == 0x14
    requires forall log: seq<Access> {:trigger dev(log, Next(Next(c.pc)))} :: dev(log, Next(Next(c.pc))) == 0x40
    ensures var op := OpcodeAt(c, dev);
      op == AbsoluteRMW(Target.DataBus, Callback.INC) && Stable(op) && !AvoidsDma(c, op, dev)
  {
    hide Next, Entry;
    EveryOpcodeIsAnEntry(0xEE);
    assert Decode(0xEE) == AbsoluteRMW(Target.DataBus, Callback.INC) by { DecodeIncrement(); }
    assert Pair(0x40, 0x14) == DMA_ADDRESS;
  }

  lemma DecodeIncrement()
    ensures Decode(0xEE) == AbsoluteRMW(Target.DataBus, Callback.INC)
  {
  }

  /** Memory that holds INC $4014 at address 0. */
  function Incrementing(log: seq<Access>, addr: word): byte {
    if addr == 0 then 0xEE else if addr == 1 then 0x14 else 0x40
  }

  /** The first instruction from power-on, if it is that one, is not completed in its six cycles. */
  lemma IncrementNotCompleted(run: seq<Machine>, lines: seq<Lines>, cfg: Config)
    requires Clocked(run, lines, cfg, Incrementing) && run[0] == PowerOn() && |lines| == 6
    ensures var o := Instruction(run[0].core, OpcodeAt(run[0].core, Incrementing), Incrementing);
      o.cycles == 6 && !Completed(run, o)
  {
    hide Cycle, Instruction, Completed, AvoidsDma, Stable, Inv, Decode;
    var c := run[0].core;
    IncrementOfDma(c, Incrementing);
    PowerOnInv();
    SixCyclesOf(c, OpcodeAt(c, Incrementing), Incrementing);
    InstructionRefined(run, lines, cfg, Incrementing);
  }

  lemma SixCyclesOf(c: Core, op: OpType, dev: Device)
    requires op.AbsoluteRMW?
    ensures Instruction(c, op, dev).cycles == 6
  {
    hide WrittenBack, Resolve, Store;
    ModifyIs(c, op, dev);
  }
}
