/** The cycle-by-cycle CPU refines its instructions, whatever the interrupt lines do meanwhile. */
module CpuCorrectness {
  import opened Bits
  import opened CpuTypes
  import opened CpuAlu
  import opened CpuExec
  import opened CpuMachine
  import opened CpuSafety
  import opened CpuRuns
  import opened CpuFlow
  import opened CpuAddressing
  import opened CpuRefinement
  import opened CpuInstructions
  import opened InstructionSet
  import opened Opcodes

  /** A stretch of consecutive cycles, with the interrupt lines sampled in each. */
  ghost predicate Clocked(run: seq<Machine>, lines: seq<Lines>, cfg: Config, dev: Device) {
    && |run| == |lines| + 1
    && (forall i {:trigger lines[i]} :: 0 <= i < |lines| ==>
          run[i].dma.remaining <= DMA_CYCLES && run[i + 1] == Cycle(run[i], lines[i], cfg, dev))
  }

  lemma ClockedTail(run: seq<Machine>, lines: seq<Lines>, cfg: Config, dev: Device)
    requires Clocked(run, lines, cfg, dev) && lines != []
    ensures run[0].dma.remaining <= DMA_CYCLES && run[1] == Cycle(run[0], lines[0], cfg, dev)
    ensures Clocked(run[1..], lines[1..], cfg, dev)
  {
    hide Cycle;
    assert lines[0] == lines[0];
    forall i | 0 <= i < |lines| - 1
      ensures run[1..][i].dma.remaining <= DMA_CYCLES && run[1..][i + 1] == Cycle(run[1..][i], lines[1..][i], cfg, dev)
    {
      assert lines[1..][i] == lines[i + 1];
    }
  }

  /** The next instruction is about to be fetched, or an interrupt sequence is about to start. */
  predicate Between(m: Machine) {
    || (m.cur == FetchOpcode && m.queue == [])
    || [m.cur] + m.queue == InterruptProgram(NMI_VECTOR)
    || [m.cur] + m.queue == InterruptProgram(IRQ_VECTOR)
  }

  /** The machine after its registers became `c`: a requested DMA has started. */
  predicate Settled(m: Machine, c: Core) {
    && m.core == c.(rdy := false)
    && m.dma.remaining == if c.rdy then DMA_CYCLES else 0
  }

  lemma AdvancePieces(m: Machine)
    ensures var n := Advance(m);
      && n.core == m.core && n.dma == m.dma && n.irq.locked == m.irq.locked
      && (m.queue != [] ==> [n.cur] + n.queue == m.queue)
      && (m.queue == [] ==> Between(n))
  {
    hide InterruptProgram, IrqDue;
    Programs(NMI_VECTOR);
    Programs(IRQ_VECTOR);
  }

  lemma Programs(vector: word)
    ensures |InterruptProgram(vector)| > 1
  {
  }

  lemma StartedPieces(m: Machine, lines: Lines)
    requires m.dma.remaining == 0
    ensures var n := Sampled(DmaStarted(m), lines);
      n.queue == m.queue && n.irq.locked == m.irq.locked && Settled(n, m.core)
  {
  }

  /** One cycle of an instruction: the micro-operation, and the next of what is left to do. */
  lemma CycleStep(m: Machine, lines: Lines, cfg: Config, dev: Device)
    requires m.dma.remaining == 0 && Ready(m.core)
    ensures var n := Cycle(m, lines, cfg, dev);
      var e := Exec(m.core, m.cur, m.irq.locked, cfg, dev);
      && Settled(n, e.core)
      && (m.queue + e.push != [] ==> [n.cur] + n.queue == m.queue + e.push)
      && (m.queue + e.push == [] ==> Between(n))
  {
    hide Exec, CalledIrq, Advance, DmaStarted, Sampled, Between, DmaCycle, Settled;
    var t := m.(dma := m.dma.(readCycle := !m.dma.readCycle));
    var p := Polled(t);
    PolledPieces(t);
    var x := Executed(p, cfg, dev);
    StartedPieces(x, lines);
    AdvancePieces(Sampled(DmaStarted(x), lines));
    SettledAdvance(Sampled(DmaStarted(x), lines), x.core);
  }

  lemma PolledPieces(m: Machine)
    ensures var p := Polled(m);
      p.core == m.core && p.cur == m.cur && p.queue == m.queue && p.dma == m.dma && p.irq.locked == m.irq.locked
  {
  }

  lemma SettledAdvance(m: Machine, c: Core)
    requires Settled(m, c)
    ensures Settled(Advance(m), c)
  {
    hide InterruptProgram, IrqDue;
  }

  lemma SameAddress(c: Core, from: AddressSource, vec: word, other: word)
    requires !from.IrqVec?
    ensures AddressOf(c, from, vec) == AddressOf(c, from, other)
  {
  }

  /** The vector is not looked at. */
  lemma AnyVector(c: Core, op: MicroOp, vec: word, other: word, cfg: Config, dev: Device)
    requires Ordinary(op)
    ensures Exec(c, op, vec, cfg, dev) == Exec(c, op, other, cfg, dev)
  {
    hide ExecFetchOpcode, ExecFetchLo, ExecFetchHi, ExecWrite, ExecPush, ExecPop, ExecPeek, ExecPageCross,
      ExecCorrupting, ExecDummy, ExecBranch, ExecFixHi, Called, LoadTo, AddTo, AddressOf, ValueOf, WriteTarget,
      ZeroPage, AddLow, Plus8, Pair, Load;
    match op {
      case Read(from, _, _) => SameAddress(c, from, vec, other);
      case DummyReadAdd(from, _, _, _) => SameAddress(c, from, vec, other);
      case ReadZeroPage(from, _, _, _, _, _, _, _) => SameAddress(c, from, vec, other);
      case ReadAbsolute(from, _, _, _, _, _, _, _) => SameAddress(c, from, vec, other);
      case _ =>
    }
  }

  /** What is left to do, or the end of the instruction. */
  predicate Left(m: Machine, rest: seq<MicroOp>) {
    if rest == [] then Between(m) else [m.cur] + m.queue == rest
  }

  /** The machine runs what is left to do one micro-operation a cycle. */
  lemma {:induction false} FollowsLeads(run: seq<Machine>, lines: seq<Lines>, w: Work, r: Core, rest: seq<MicroOp>,
                                        vec: word, cfg: Config, dev: Device)
    requires Clocked(run, lines, cfg, dev) && lines != []
    requires run[0].core == w.core && [run[0].cur] + run[0].queue == w.todo && run[0].dma.remaining == 0
    requires Leads(w, |lines|, Work(r, rest), vec, cfg, dev)
    ensures Settled(run[|lines|], r) && Left(run[|lines|], rest)
    ensures forall i {:trigger lines[i]} :: 0 <= i < |lines| ==>
              run[i].dma.remaining == 0 && Ready(run[i].core) && (i < |lines| - 1 ==> !Boundary(run[i], cfg, dev))
    decreases |lines|
  {
    hide Exec, Ordinary, Ready, Cycle, Between;
    var m := run[0];
    var op := w.todo[0];
    ClockedTail(run, lines, cfg, dev);
    assert op == m.cur && w.todo[1..] == m.queue;
    AnyVector(w.core, op, vec, m.irq.locked, cfg, dev);
    CycleStep(m, lines[0], cfg, dev);
    var e := Exec(w.core, op, vec, cfg, dev);
    var v := Work(e.core, w.todo[1..] + e.push);
    if |lines| == 1 {
      assert v == Work(r, rest);
    } else {
      LeadsReady(v, |lines| - 1, Work(r, rest), vec, cfg, dev);
      ReadySettled(run[1], e.core);
      FollowsLeads(run[1..], lines[1..], v, r, rest, vec, cfg, dev);
      forall i | 1 <= i < |lines|
        ensures run[i].dma.remaining == 0 && Ready(run[i].core) && (i < |lines| - 1 ==> !Boundary(run[i], cfg, dev))
      {
        assert lines[1..][i - 1] == lines[i] && run[1..][i - 1] == run[i];
      }
    }
  }

  lemma LeadsReady(v: Work, k: nat, r: Work, vec: word, cfg: Config, dev: Device)
    requires k > 0 && Leads(v, k, r, vec, cfg, dev)
    ensures Ready(v.core) && v.todo != []
  {
    hide Exec, Ordinary, Ready;
  }

  lemma ReadySettled(m: Machine, c: Core)
    requires Settled(m, c) && Ready(c)
    ensures m.core == c && m.dma.remaining == 0
  {
  }

  // --- an instruction has one opcode fetch

  lemma StaysInside(m: Machine, lines: Lines, cfg: Config, dev: Device)
    requires Inv(m) && m.dma.remaining == 0 && Ready(m.core) && !Boundary(m, cfg, dev)
    ensures !Cycle(m, lines, cfg, dev).cur.FetchOpcode?
  {
    hide Cycle, Boundary, StackBitsClear, Orderly;
    ExecutingShortens(m, Clock(lines), cfg, dev);
  }

  lemma {:induction false} InsideInstruction(run: seq<Machine>, lines: seq<Lines>, i: nat, cfg: Config, dev: Device)
    requires Clocked(run, lines, cfg, dev) && Inv(run[0]) && i <= |lines|
    ensures Inv(run[i])
    decreases i
  {
    hide Inv, Cycle;
    if i > 0 {
      InsideInstruction(run, lines, i - 1, cfg, dev);
      assert lines[i - 1] == lines[i - 1];
      CycleInv(run[i - 1], lines[i - 1], cfg, dev);
    }
  }

  /** The CPU is about to fetch an opcode. */
  predicate AtFetch(m: Machine) {
    m.cur.FetchOpcode? && m.dma.remaining == 0 && !m.core.halted
  }

  function OpcodeAt(c: Core, dev: Device): OpType {
    Decode(LoadValue(c, c.pc, dev))
  }

  /**
   The machine has taken exactly the cycles of the instruction to the next instruction boundary, has its
   registers and has made its bus accesses; in between, it was at no other opcode fetch.
   */
  ghost predicate Completed(run: seq<Machine>, o: Outcome)
    requires |run| > o.cycles
  {
    var end := run[o.cycles];
    && Agree(end.core, o.core.(rdy := false))
    && end.dma.remaining == (if o.core.rdy then DMA_CYCLES else 0)
    && Between(end)
    && (forall i {:trigger run[i]} :: 0 < i < o.cycles ==> !run[i].cur.FetchOpcode? && !run[i].core.halted)
  }

  lemma InstructionCompletes(run: seq<Machine>, lines: seq<Lines>, cfg: Config, dev: Device)
    requires Clocked(run, lines, cfg, dev) && Inv(run[0]) && AtFetch(run[0])
    requires Stable(OpcodeAt(run[0].core, dev)) && AvoidsDma(run[0].core, OpcodeAt(run[0].core, dev), dev)
    requires |lines| == Instruction(run[0].core, OpcodeAt(run[0].core, dev), dev).cycles
    ensures Completed(run, Instruction(run[0].core, OpcodeAt(run[0].core, dev), dev))
  {
    hide Exec, Ordinary, Cycle, Between, Leads, Instruction, Decode, LoadValue, Stable, AvoidsDma, Boundary;
    var m := run[0];
    var op := OpcodeAt(m.core, dev);
    var o := Instruction(m.core, op, dev);
    FetchAlone(m);
    var r := ProgramRefines(m.core, op, 0, cfg, dev);
    CyclesPositive(m.core, op, dev);
    FollowsLeads(run, lines, Fetching(m.core), r, [], 0, cfg, dev);
    AgreeSettled(run[o.cycles], r, o.core);
    forall i | 0 < i < o.cycles
      ensures !run[i].cur.FetchOpcode? && !run[i].core.halted
    {
      assert lines[i] == lines[i] && lines[i - 1] == lines[i - 1];
      InsideInstruction(run, lines, i - 1, cfg, dev);
      StaysInside(run[i - 1], lines[i - 1], cfg, dev);
    }
  }

  // --- a read-modify-write of $4014

  /** Only the write of the data latch to $4014 is left to do, and a DMA stands before it. */
  predicate HeldUp(m: Machine) {
    && m.cur.Write? && m.cur.src == Source.DataBus && m.cur.cb == NoOp && m.queue == []
    && BusTarget(m.cur.to) && TargetAddress(m.core, m.cur.to) == DMA_ADDRESS
    && m.dma.remaining > 0 && !m.core.halted && !m.core.rdy
  }

  /** The registers of a read-modify-write before its last write. */
  function BeforeLast(c: Core, op: OpType, dev: Device): Core
    requires ModifiesMemory(op)
  {
    WrittenBack(c, op, ModifyMode(op), op.cb, dev)
  }

  /**
   The first write of a read-modify-write of $4014 starts a DMA.  When the instruction should be over the
   DMA is under way, and the second write is still the current micro-operation.  `k + 1` are its cycles.
   */
  lemma ModifyIsHeldUp(run: seq<Machine>, lines: seq<Lines>, k: nat, cfg: Config, dev: Device)
    requires Clocked(run, lines, cfg, dev) && Inv(run[0]) && AtFetch(run[0])
    requires Stable(OpcodeAt(run[0].core, dev)) && !AvoidsDma(run[0].core, OpcodeAt(run[0].core, dev), dev)
    requires k + 1 == Instruction(run[0].core, OpcodeAt(run[0].core, dev), dev).cycles <= |lines|
    ensures var half := BeforeLast(run[0].core, OpcodeAt(run[0].core, dev), dev);
      && HeldUp(run[k]) && run[k].dma.remaining == DMA_CYCLES
      && Agree(run[k].core, half.(rdy := false)) && run[k].core.db == half.db
    ensures HeldUp(run[k + 1]) && run[k + 1].dma.remaining == DMA_CYCLES - 1 && !Between(run[k + 1])
  {
    hide Exec, Ordinary, Cycle, Between, Leads, Instruction, Decode, LoadValue, Entry, Boundary, WrittenBack, Resolve,
      ModifyInstruction, TargetAddress, Agree, BusTarget;
    var c := run[0].core;
    var op := OpcodeAt(c, dev);
    FetchAlone(run[0]);
    var h, to, pre := ComesHalfway(c, op, 0, cfg, dev);
    ModifyIs(c, op, dev);
    ModifyLong(c, op, dev);
    Prefix(run, lines, k, cfg, dev);
    FollowsLeads(run[..k + 1], lines[..k], Fetching(c), h, [WriteNew(to, pre)], 0, cfg, dev);
    var m := run[k];
    SettledWrite(m, h, to, BeforeLast(c, op, dev));
    SingleLeft(m, WriteNew(to, pre));
    assert lines[k] == lines[k];
    FirstStall(m, lines[k], cfg, dev);
    NotBetween(run[k + 1]);
  }

  lemma SingleLeft(m: Machine, op: MicroOp)
    requires [m.cur] + m.queue == [op]
    ensures m.cur == op && m.queue == []
  {
    assert ([m.cur] + m.queue)[0] == m.cur && |[m.cur] + m.queue| == 1 + |m.queue|;
  }

  lemma Prefix(run: seq<Machine>, lines: seq<Lines>, k: nat, cfg: Config, dev: Device)
    requires Clocked(run, lines, cfg, dev) && k < |lines|
    ensures Clocked(run[..k + 1], lines[..k], cfg, dev)
  {
    hide Cycle;
    var n := k + 1;
    forall i | 0 <= i < k
      ensures run[..n][i].dma.remaining <= DMA_CYCLES && run[..n][i + 1] == Cycle(run[..n][i], lines[..k][i], cfg, dev)
    {
      assert lines[i] == lines[i];
    }
  }

  lemma SettledWrite(m: Machine, h: Core, to: Target, half: Core)
    requires Settled(m, h) && AboutToWrite(h, to, DMA_ADDRESS, half)
    ensures m.dma.remaining == DMA_CYCLES && !m.core.halted && !m.core.rdy && BusTarget(to)
    ensures TargetAddress(m.core, to) == DMA_ADDRESS
    ensures Agree(m.core, half.(rdy := false)) && m.core.db == half.db
  {
    hide Pair, ZeroPage;
  }

  lemma FirstStall(m: Machine, lines: Lines, cfg: Config, dev: Device)
    requires m.dma.remaining == DMA_CYCLES && HeldUp(m)
    ensures HeldUp(Cycle(m, lines, cfg, dev)) && Cycle(m, lines, cfg, dev).dma.remaining == DMA_CYCLES - 1
  {
    hide DmaIdle, DmaTransfer, Pair, ZeroPage, Load;
    var t := m.(dma := m.dma.(readCycle := !m.dma.readCycle));
    DmaIdleEffect(t, cfg, dev);
    LoadFrame(m.core, Pair(m.core.hi, m.core.lo), dev);
    LoadKeepsHalves(m.core, Pair(m.core.hi, m.core.lo), dev);
    SameHalves(t.core, Load(t.core, Pair(t.core.hi, t.core.lo), dev), m.cur.to);
  }

  lemma LoadKeepsHalves(c: Core, addr: word, dev: Device)
    ensures Load(c, addr, dev).hi == c.hi && Load(c, addr, dev).lo == c.lo
  {
  }

  lemma SameHalves(c: Core, d: Core, to: Target)
    requires c.hi == d.hi && c.lo == d.lo
    ensures TargetAddress(c, to) == TargetAddress(d, to)
  {
    hide Pair, ZeroPage;
  }

  lemma NotBetween(m: Machine)
    requires HeldUp(m)
    ensures !Between(m)
  {
    hide TargetAddress;
    Programs(NMI_VECTOR);
    Programs(IRQ_VECTOR);
    assert |[m.cur] + m.queue| == 1;
  }

  /**
   Of every stable opcode, whatever the interrupt lines do: the machine completes its instruction in its
   cycles if and only if it is no read-modify-write of $4014.
   */
  lemma InstructionRefined(run: seq<Machine>, lines: seq<Lines>, cfg: Config, dev: Device)
    requires Clocked(run, lines, cfg, dev) && Inv(run[0]) && AtFetch(run[0])
    requires Stable(OpcodeAt(run[0].core, dev))
    requires |lines| == Instruction(run[0].core, OpcodeAt(run[0].core, dev), dev).cycles
    ensures Completed(run, Instruction(run[0].core, OpcodeAt(run[0].core, dev), dev))
       <==> AvoidsDma(run[0].core, OpcodeAt(run[0].core, dev), dev)
  {
    hide Cycle, Between, Instruction, Decode, LoadValue, AvoidsDma, HeldUp, Entry, Inv;
    var c := run[0].core;
    if AvoidsDma(c, OpcodeAt(c, dev), dev) {
      InstructionCompletes(run, lines, cfg, dev);
    } else {
      CyclesPositive(c, OpcodeAt(c, dev), dev);
      ModifyIsHeldUp(run, lines, |lines| - 1, cfg, dev);
    }
  }

  lemma FetchAlone(m: Machine)
    requires Inv(m) && m.cur.FetchOpcode?
    ensures m.queue == [] && [m.cur] + m.queue == [FetchOpcode] && !m.core.rdy
  {
    hide Orderly, StackBitsClear, Budget;
  }

  lemma MemoryCycles(c: Core, op: OpType, dev: Device)
    ensures forall mode, target, cb {:trigger ReadInstruction(c, op, mode, target, cb, dev)} ::
              ReadInstruction(c, op, mode, target, cb, dev).cycles > 0
    ensures forall mode, src, cb {:trigger WriteInstruction(c, op, mode, src, cb, dev)} ::
              WriteInstruction(c, op, mode, src, cb, dev).cycles > 0
    ensures forall mode, cb {:trigger ModifyInstruction(c, op, mode, cb, dev)} ::
              ModifyInstruction(c, op, mode, cb, dev).cycles > 0
  {
    hide Called, Alu, WriteRegister, Resolve, Look, Answer, Store, Behind;
  }

  predicate Accesses(op: OpType) {
    Reads(op) || IndexedReads(op) || Stores(op) || IndexedStores(op) || Modifies(op) || IndexedModifies(op)
  }

  lemma LoadsPositive(c: Core, op: OpType, dev: Device)
    requires Stable(op) && (Reads(op) || IndexedReads(op))
    ensures Instruction(c, op, dev).cycles > 0
  {
    hide ReadInstruction, WriteInstruction, ModifyInstruction, ImmediateInstruction, ImpliedInstruction, PushInstruction,
      PullInstruction, BranchInstruction, CallInstruction, ReturnInstruction, JumpInstruction, JumpIndirectInstruction,
      ReturnFromInterrupt, Stable, Entry;
    MemoryCycles(c, op, dev);
  }

  lemma StoresPositive(c: Core, op: OpType, dev: Device)
    requires Stable(op) && (Stores(op) || IndexedStores(op))
    ensures Instruction(c, op, dev).cycles > 0
  {
    hide ReadInstruction, WriteInstruction, ModifyInstruction, ImmediateInstruction, ImpliedInstruction, PushInstruction,
      PullInstruction, BranchInstruction, CallInstruction, ReturnInstruction, JumpInstruction, JumpIndirectInstruction,
      ReturnFromInterrupt, Stable, Entry;
    MemoryCycles(c, op, dev);
  }

  lemma ModifiesPositive(c: Core, op: OpType, dev: Device)
    requires Stable(op) && ModifiesMemory(op)
    ensures Instruction(c, op, dev).cycles > 0
  {
    hide Instruction, ModifyInstruction, Stable;
    ModifyIs(c, op, dev);
    MemoryCycles(c, op, dev);
  }

  lemma AccessesPositive(c: Core, op: OpType, dev: Device)
    requires Stable(op) && Accesses(op)
    ensures Instruction(c, op, dev).cycles > 0
  {
    hide Instruction, Entry;
    if Reads(op) || IndexedReads(op) {
      LoadsPositive(c, op, dev);
    } else if Stores(op) || IndexedStores(op) {
      StoresPositive(c, op, dev);
    } else {
      ModifiesPositive(c, op, dev);
    }
  }

  lemma OthersPositive(c: Core, op: OpType, dev: Device)
    requires Stable(op) && !Accesses(op)
    ensures Instruction(c, op, dev).cycles > 0
  {
    hide Called, Alu, WriteRegister, Look, Answer, Store, InstructionSet.Pushed, Pulled, Peeked, Entry, Holds,
      BranchTarget, Begun;
  }

  lemma CyclesPositive(c: Core, op: OpType, dev: Device)
    requires Stable(op)
    ensures Instruction(c, op, dev).cycles > 0
  {
    hide Instruction, Accesses;
    if Accesses(op) {
      AccessesPositive(c, op, dev);
    } else {
      OthersPositive(c, op, dev);
    }
  }

  lemma AgreeSettled(m: Machine, r: Core, c: Core)
    requires Settled(m, r) && Agree(r, c)
    ensures Agree(m.core, c.(rdy := false)) && m.dma.remaining == if c.rdy then DMA_CYCLES else 0
  {
  }
}
