/** Round trips over runs of the machine: interrupts, BRK and calls, and any code in between. */
module CpuReturns {
  import opened Bits
  import opened CpuTypes
  import opened CpuAlu
  import opened CpuExec
  import opened CpuMachine
  import opened CpuSafety
  import opened CpuFlow
  import opened CpuAddressing
  import opened CpuControl
  import opened CpuInstructions
  import opened CpuCorrectness
  import opened CpuInterrupts
  import opened InstructionSet
  import opened Opcodes

  lemma ClockedAt(run: seq<Machine>, lines: seq<Lines>, k: nat, cfg: Config, dev: Device)
    requires Clocked(run, lines, cfg, dev) && k < |lines|
    ensures run[k].dma.remaining <= DMA_CYCLES && run[k + 1] == Cycle(run[k], lines[k], cfg, dev)
  {
    hide Cycle;
    assert lines[k] == lines[k];
  }

  lemma ClockedPrefix(run: seq<Machine>, lines: seq<Lines>, j: nat, cfg: Config, dev: Device)
    requires Clocked(run, lines, cfg, dev) && j <= |lines|
    ensures Clocked(run[..j + 1], lines[..j], cfg, dev)
  {
    hide Cycle;
    var n := j + 1;
    forall k | 0 <= k < |lines[..j]|
      ensures run[..n][k].dma.remaining <= DMA_CYCLES
        && run[..n][k + 1] == Cycle(run[..n][k], lines[..j][k], cfg, dev)
    {
      ClockedAt(run, lines, k, cfg, dev);
    }
    assert Clocked(run[..n], lines[..j], cfg, dev);
  }

  lemma ClockedSuffix(run: seq<Machine>, lines: seq<Lines>, i: nat, cfg: Config, dev: Device)
    requires Clocked(run, lines, cfg, dev) && i <= |lines|
    ensures Clocked(run[i..], lines[i..], cfg, dev)
  {
    hide Cycle;
    forall k | 0 <= k < |lines| - i
      ensures run[i..][k].dma.remaining <= DMA_CYCLES
        && run[i..][k + 1] == Cycle(run[i..][k], lines[i..][k], cfg, dev)
    {
      ClockedAt(run, lines, i + k, cfg, dev);
    }
  }

  /** An interrupt sequence through `vector` is about to start. */
  predicate AtInterrupt(m: Machine, vector: word) {
    [m.cur] + m.queue == InterruptProgram(vector) && m.dma.remaining == 0 && !m.core.halted
  }

  /** An interrupt takes seven cycles, pushes the return address and the status, and jumps through its vector. */
  lemma InterruptEntered(run: seq<Machine>, lines: seq<Lines>, vector: word, cfg: Config, dev: Device)
    requires Clocked(run, lines, cfg, dev) && Inv(run[0]) && AtInterrupt(run[0], vector) && |lines| == 7
    ensures run[7].core == InterruptEntry(run[0].core, vector, dev).core && Between(run[7]) && run[7].dma.remaining == 0
  {
    hide Exec, Ordinary, Cycle, Between, Leads, InterruptProgram, Scheduled, StackBitsClear;
    var c := run[0].core;
    InterruptRefines(c, vector, 0, cfg, dev);
    var e := InterruptEntry(c, vector, dev).core;
    FollowsLeads(run, lines, Work(c, InterruptProgram(vector)), e, [], 0, cfg, dev);
    EntryKeepsRdy(c, vector, dev);
  }

  lemma EntryKeepsRdy(c: Core, vector: word, dev: Device)
    requires !c.rdy
    ensures var e := InterruptEntry(c, vector, dev).core; !e.rdy && e.(rdy := false) == e
  {
    hide Pair, AddLow, WithFlag, ReturnPushed, High, Low, StatusIrq;
    var d := c.(log := Look(Look(c.log, c.pc, dev), c.pc, dev));
    ReturnPushedRdy(d, StatusIrq(c.p));
    VectoredRdy(d, StatusIrq(c.p), vector, dev);
  }

  lemma ReturnPushedRdy(c: Core, status: byte)
    ensures ReturnPushed(c, status).rdy == c.rdy
  {
    hide High, Low, StackAddress, Dec, ReturnPushed;
    ReturnPushedIs(c, status);
  }

  lemma VectoredRdy(c: Core, status: byte, vector: word, dev: Device)
    ensures Vectored(c, status, vector, dev).rdy == ReturnPushed(c, status).rdy
  {
    hide Pair, AddLow, WithFlag, High, Low, InstructionSet.Pushed;
  }

  /** Between two states of a run, the stack pointer and the bytes of a return address and status survived. */
  predicate FrameKept(before: Core, after: Core, sp: byte) {
    && after.sp == before.sp
    && LastStored(after.log, StackAddress(sp)) == LastStored(before.log, StackAddress(sp))
    && LastStored(after.log, StackAddress(Dec(sp))) == LastStored(before.log, StackAddress(Dec(sp)))
    && LastStored(after.log, StackAddress(Dec(Dec(sp)))) == LastStored(before.log, StackAddress(Dec(Dec(sp))))
  }

  lemma FrameHolds(before: Core, after: Core, sp: byte, pc: word, status: byte)
    requires FrameKept(before, after, sp)
    ensures Holding(before.log, sp, pc) ==> Holding(after.log, sp, pc)
    ensures HoldingStatus(before.log, sp, status) ==> HoldingStatus(after.log, sp, status)
  {
    hide StackAddress, Dec, High, Low, LastStored;
  }

  lemma RunFrom(run: seq<Machine>, lines: seq<Lines>, i: nat, cfg: Config, dev: Device)
    requires Clocked(run, lines, cfg, dev) && Inv(run[0]) && i <= |lines|
    ensures Clocked(run[i..], lines[i..], cfg, dev) && Inv(run[i..][0])
  {
    hide Cycle, Inv;
    ClockedSuffix(run, lines, i, cfg, dev);
    InsideInstruction(run, lines, i, cfg, dev);
  }

  /** The six cycles of RTI or RTS at the end of a run. */
  lemma ReturnsAtEnd(run: seq<Machine>, lines: seq<Lines>, i: nat, cfg: Config, dev: Device)
    requires Clocked(run, lines, cfg, dev) && Inv(run[0]) && |lines| == i + 6
    requires AtFetch(run[i]) && (OpcodeAt(run[i].core, dev).RTI? || OpcodeAt(run[i].core, dev).RTS?)
    ensures var op := OpcodeAt(run[i].core, dev);
      var r := Instruction(run[i].core, op, dev).core;
      var end := run[i + 6].core;
      end.pc == r.pc && end.sp == r.sp && end.p == r.p
  {
    hide Cycle, Inv, Decode, LoadValue, AtFetch, Between;
    RunFrom(run, lines, i, cfg, dev);
    var op := OpcodeAt(run[i].core, dev);
    EveryOpcodeIsAnEntry(LoadValue(run[i].core, run[i].core.pc, dev));
    SixCycles(run[i].core, op, dev);
    assert run[i..][0] == run[i] && run[i..][6] == run[i + 6];
    InstructionRefined(run[i..], lines[i..], cfg, dev);
  }

  lemma SixCycles(c: Core, op: OpType, dev: Device)
    requires Entry(op) && (op.RTI? || op.RTS?)
    ensures Stable(op) && AvoidsDma(c, op, dev) && Instruction(c, op, dev).cycles == 6
  {
    hide Peeked, Pulled, PulledByte, Pair, Entry;
  }

  /**
   An interrupt followed by any code that leaves the stack frame alone and ends in RTI restores the
   program counter, the stack pointer and the status, for every value of the stack pointer.
   */
  lemma InterruptReturns(run: seq<Machine>, lines: seq<Lines>, vector: word, n: nat, cfg: Config, dev: Device)
    requires Clocked(run, lines, cfg, dev) && Inv(run[0]) && AtInterrupt(run[0], vector) && |lines| == 7 + n + 6
    requires AtFetch(run[7 + n]) && OpcodeAt(run[7 + n].core, dev).RTI?
    requires StackRam(dev) && FrameKept(run[7].core, run[7 + n].core, run[0].core.sp)
    ensures var c, end := run[0].core, run[7 + n + 6].core;
      end.pc == c.pc && end.sp == c.sp && end.p == c.p
  {
    hide Cycle, Decode, LoadValue, Between, StackRam, InterruptProgram, Scheduled, StackBitsClear, FrameKept, Holding,
      HoldingStatus, StatusIrq, StatusPulled, Vectored, ReturnFromInterrupt, ReturnInstruction, Dec, AtInterrupt;
    var c := run[0].core;
    EntryInRun(run, lines, vector, cfg, dev);
    var e, d := run[7].core, run[7 + n].core;
    VectoredHeld(c.(log := Look(Look(c.log, c.pc, dev), c.pc, dev)), StatusIrq(c.p), vector, dev);
    FrameHolds(e, d, c.sp, c.pc, StatusIrq(c.p));
    FrameSp(e, d, c.sp);
    var op := OpcodeAt(d, dev);
    TakesBackInterrupt(d, op, c.sp, c.pc, StatusIrq(c.p), dev);
    StatusBack(c.p);
    ReturnsAtEnd(run, lines, 7 + n, cfg, dev);
  }

  lemma FrameSp(before: Core, after: Core, sp: byte)
    requires FrameKept(before, after, sp)
    ensures after.sp == before.sp
  {
    hide StackAddress, Dec, LastStored;
  }

  lemma EntryInRun(run: seq<Machine>, lines: seq<Lines>, vector: word, cfg: Config, dev: Device)
    requires Clocked(run, lines, cfg, dev) && Inv(run[0]) && AtInterrupt(run[0], vector) && |lines| >= 7
    ensures run[7].core == InterruptEntry(run[0].core, vector, dev).core
  {
    hide Cycle, Inv, AtInterrupt, InterruptEntry, Between;
    ClockedPrefix(run, lines, 7, cfg, dev);
    assert run[..8][0] == run[0] && run[..8][7] == run[7];
    InterruptEntered(run[..8], lines[..7], vector, cfg, dev);
  }

  // --- calls

  lemma CallHeld(c: Core, op: OpType, dev: Device)
    ensures var r := CallInstruction(c, op, dev).core;
      Holding(r.log, c.sp, Next(Next(c.pc))) && r.sp == Dec(Dec(c.sp))
  {
    hide StackAddress, High, Low, Dec, LastStored, Look, Pair, Answer, Next;
    var k := Peeked(c, op, dev);
    var last := Next(k.pc);
    var m := k.(log := Look(k.log, last, dev));
    PushReady(m, High(last));
    PushReady(InstructionSet.Pushed(m, High(last)), Low(last));
    StackSlots(c.sp);
    var a, a1 := StackAddress(c.sp), StackAddress(Dec(c.sp));
    var l1 := m.log + [Stored(a, High(last))];
    var l2 := l1 + [Stored(a1, Low(last))];
    StoredLast(m.log, a, a, High(last));
    StoredLast(l1, a, a1, Low(last));
    StoredLast(l1, a1, a1, Low(last));
    LookKeeps(l2, a, last, dev);
    LookKeeps(l2, a1, last, dev);
    hide InstructionSet.Pushed;
  }

  lemma CallInRun(run: seq<Machine>, lines: seq<Lines>, cfg: Config, dev: Device)
    requires Clocked(run, lines, cfg, dev) && Inv(run[0]) && |lines| >= 6
    requires AtFetch(run[0]) && OpcodeAt(run[0].core, dev).JSR?
    ensures var r := CallInstruction(run[0].core, OpcodeAt(run[0].core, dev), dev).core;
      run[6].core.sp == r.sp && run[6].core.log == r.log && run[6].core.pc == r.pc
  {
    hide Cycle, Inv, Decode, LoadValue, AtFetch, Between, CallInstruction;
    var op := OpcodeAt(run[0].core, dev);
    EveryOpcodeIsAnEntry(LoadValue(run[0].core, run[0].core.pc, dev));
    CallCycles(run[0].core, op, dev);
    ClockedPrefix(run, lines, 6, cfg, dev);
    assert run[..7][0] == run[0] && run[..7][6] == run[6];
    InstructionRefined(run[..7], lines[..6], cfg, dev);
  }

  lemma CallCycles(c: Core, op: OpType, dev: Device)
    requires Entry(op) && op.JSR?
    ensures Stable(op) && AvoidsDma(c, op, dev) && Instruction(c, op, dev) == CallInstruction(c, op, dev)
    ensures Instruction(c, op, dev).cycles == 6
  {
    hide Peeked, Pair, Entry, InstructionSet.Pushed, Look, Answer;
  }

  /** A subroutine that leaves its return address alone and ends in RTS returns behind the call. */
  lemma CallReturns(run: seq<Machine>, lines: seq<Lines>, n: nat, cfg: Config, dev: Device)
    requires Clocked(run, lines, cfg, dev) && Inv(run[0]) && |lines| == 6 + n + 6
    requires AtFetch(run[0]) && OpcodeAt(run[0].core, dev).JSR?
    requires AtFetch(run[6 + n]) && OpcodeAt(run[6 + n].core, dev).RTS?
    requires StackRam(dev) && FrameKept(run[6].core, run[6 + n].core, run[0].core.sp)
    ensures var c, end := run[0].core, run[6 + n + 6].core;
      end.pc == Plus(c.pc, 3) && end.sp == c.sp
  {
    hide Cycle, Decode, LoadValue, Between, StackRam, FrameKept, Holding, ReturnFromInterrupt, ReturnInstruction, Dec,
      CallInstruction, Inv, Plus, Next;
    var c := run[0].core;
    CallInRun(run, lines, cfg, dev);
    CallHeld(c, OpcodeAt(c, dev), dev);
    var e, d := run[6].core, run[6 + n].core;
    FrameHolds(e, d, c.sp, Next(Next(c.pc)), 0);
    FrameSp(e, d, c.sp);
    TakesBackCall(d, OpcodeAt(d, dev), c.sp, Next(Next(c.pc)), dev);
    Lengths(c.pc);
    ReturnsAtEnd(run, lines, 6 + n, cfg, dev);
  }
}
