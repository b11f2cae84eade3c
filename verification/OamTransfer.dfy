/** OAM DMA end to end: the page the CPU reads arrives in the sprite memory of the PPU. */
module OamTransfer {
  import opened Bits
  import opened CpuTypes
  import opened CpuExec
  import opened CpuAddressing
  import opened CpuMachine
  import opened CpuSafety
  import opened CpuInstructions
  import opened CpuCorrectness
  import opened CpuReturns
  import opened InstructionSet
  import opened OamDma
  import opened Opcodes
  import M = ObjectMemory

  /** The object memory port after it saw the accesses of a bus in which nothing is drawn. */
  function Delivered(p: M.Port, log: seq<Access>): (r: M.Port)
    requires p.Valid()
    ensures r.Valid()
  {
    if log == [] then p
    else
      var q := Delivered(p, log[..|log| - 1]);
      var last := log[|log| - 1];
      if last.Stored? && last.addr == OAM_ADDRESS then M.WritePort(q, last.data, false) else q
  }

  /** Reads and sprite memory writes do not change what is read from the page, as in RAM. */
  ghost predicate QuietPage(page: byte, dev: Device) {
    forall log: seq<Access>, acc: Access, i: nat {:trigger dev(log + [acc], DmaAddress(page, i))} ::
      i < 256 && (acc.Loaded? || acc.addr == OAM_ADDRESS) ==>
        dev(log + [acc], DmaAddress(page, i)) == dev(log, DmaAddress(page, i))
  }

  /** The bytes of the page. */
  function PageBytes(log: seq<Access>, page: byte, n: nat, dev: Device): seq<byte>
    requires n <= 256
  {
    seq(n, i requires 0 <= i < n => dev(log, DmaAddress(page, i)))
  }

  lemma {:induction false} CopyKeepsPage(log: seq<Access>, page: byte, n: nat, i: nat, dev: Device)
    requires QuietPage(page, dev) && n <= 256 && i < 256
    ensures dev(CopiedLog(log, page, n, dev), DmaAddress(page, i)) == dev(log, DmaAddress(page, i))
  {
    hide DmaAddress;
    if n > 0 {
      CopyKeepsPage(log, page, n - 1, i, dev);
      var l := CopiedLog(log, page, n - 1, dev);
      var a := DmaAddress(page, n - 1);
      assert dev(l + [Loaded(a, dev(l, a))], DmaAddress(page, i)) == dev(l, DmaAddress(page, i));
    }
  }

  lemma {:induction false} CopyExtends(log: seq<Access>, page: byte, n: nat, dev: Device)
    requires n <= 256
    ensures log <= CopiedLog(log, page, n, dev)
  {
    hide DmaAddress;
    if n > 0 {
      CopyExtends(log, page, n - 1, dev);
    }
  }

  lemma DeliveredStep(p: M.Port, log: seq<Access>, read: Access, v: byte)
    requires p.Valid() && read.Loaded?
    ensures Delivered(p, log + [read] + [Stored(OAM_ADDRESS, v)]) == M.WritePort(Delivered(p, log), v, false)
  {
    var one := log + [read];
    var two := one + [Stored(OAM_ADDRESS, v)];
    assert two[..|two| - 1] == one && one[..|one| - 1] == log;
    hide M.WritePort;
  }

  lemma WrittenStep(p: M.Port, data: seq<byte>, v: byte)
    requires p.Valid()
    ensures M.WriteAll(p, data + [v]) == M.WritePort(M.WriteAll(p, data), v, false)
  {
    assert (data + [v])[..|data|] == data;
    hide M.WritePort;
  }

  /** The copy delivers the bytes of the page in order. */
  lemma {:induction false} CopyDelivers(p: M.Port, log: seq<Access>, from: nat, page: byte, n: nat, dev: Device)
    requires p.Valid() && QuietPage(page, dev) && n <= 256 && from <= |log|
    requires Delivered(p, log[from..]) == p
    ensures log <= CopiedLog(log, page, n, dev)
    ensures Delivered(p, CopiedLog(log, page, n, dev)[from..]) == M.WriteAll(p, PageBytes(log, page, n, dev))
    decreases n
  {
    hide DmaAddress, Delivered, M.WriteAll, M.WritePort, QuietPage;
    CopyExtends(log, page, n, dev);
    if n == 0 {
      NothingWritten(p);
      assert PageBytes(log, page, 0, dev) == [];
    } else {
      CopyDelivers(p, log, from, page, n - 1, dev);
      CopyExtends(log, page, n - 1, dev);
      var l := CopiedLog(log, page, n - 1, dev);
      var a := DmaAddress(page, n - 1);
      CopyKeepsPage(log, page, n - 1, n - 1, dev);
      var read := Loaded(a, dev(l, a));
      assert CopiedLog(log, page, n, dev)[from..] == l[from..] + [read] + [Stored(OAM_ADDRESS, dev(l, a))];
      DeliveredStep(p, l[from..], read, dev(l, a));
      var bytes := PageBytes(log, page, n - 1, dev);
      assert PageBytes(log, page, n, dev) == bytes + [dev(l, a)];
      WrittenStep(p, bytes, dev(l, a));
    }
  }

  lemma NothingWritten(p: M.Port)
    requires p.Valid()
    ensures M.WriteAll(p, []) == p
  {
  }

  lemma AlignedDelivers(p: M.Port, c: Core, readCycle: bool, dev: Device)
    requires p.Valid()
    ensures c.log <= Aligned(c, readCycle, dev)
    ensures Delivered(p, Aligned(c, readCycle, dev)[|c.log|..]) == p
  {
    hide Pair, M.WritePort;
    var h := Pair(c.hi, c.lo);
    var one := Look(c.log, h, dev);
    var two := Look(one, h, dev);
    var first, second := Loaded(h, dev(c.log, h)), Loaded(h, dev(one, h));
    assert one[|c.log|..] == [] + [first] && two[|c.log|..] == ([] + [first]) + [second];
    ReadsDeliver(p, [], first);
    ReadsDeliver(p, [] + [first], second);
  }

  lemma ReadsDeliver(p: M.Port, log: seq<Access>, read: Access)
    requires p.Valid() && read.Loaded?
    ensures Delivered(p, log + [read]) == Delivered(p, log)
  {
    assert (log + [read])[..|log|] == log;
  }

  lemma AlignedPage(c: Core, readCycle: bool, page: byte, i: nat, dev: Device)
    requires QuietPage(page, dev) && i < 256
    ensures dev(Aligned(c, readCycle, dev), DmaAddress(page, i)) == dev(c.log, DmaAddress(page, i))
  {
    hide Pair, DmaAddress;
    var h := Pair(c.hi, c.lo);
    var l := Look(c.log, h, dev);
    assert dev(c.log + [Loaded(h, dev(c.log, h))], DmaAddress(page, i)) == dev(c.log, DmaAddress(page, i));
    assert dev(l + [Loaded(h, dev(l, h))], DmaAddress(page, i)) == dev(l, DmaAddress(page, i));
  }

  /**
   A DMA from a RAM page while nothing is drawn leaves every primary byte equal to the page's byte as
   far from its start as the cell is from the address the port had, with the unused attribute bits
   cleared; the port address and secondary memory are as before.
   */
  lemma DmaCopiesPage(run: seq<Machine>, lines: seq<Lines>, p: M.Port, cfg: Config, dev: Device)
    requires Clocked(run, lines, cfg, dev) && run[0].dma.remaining == DMA_CYCLES && !run[0].core.halted
    requires |lines| == StallCycles(run[0].dma.readCycle) && p.Valid() && QuietPage(run[0].core.page, dev)
    ensures var before, after := run[0].core, run[|lines|].core;
      && before.log <= after.log
      && var r := Delivered(p, after.log[|before.log|..]);
         && r.addr == p.addr && M.Secondary(r.cells) == M.Secondary(p.cells)
         && (forall a {:trigger M.Primary(r.cells)[a]} :: 0 <= a < 256 ==>
               M.Primary(r.cells)[a]
               == M.StoredBits(a, Answer(before.log, DmaAddress(before.page, (a + 256 - p.addr) % 256), dev)))
  {
    hide Cycle, Aligned, CopiedLog, DmaAddress, Delivered, M.WriteAll, M.Primary, M.Secondary, M.StoredBits, QuietPage;
    var c := run[0].core;
    var r := run[0].dma.readCycle;
    TransfersPage(run, lines, cfg, dev);
    var l := Aligned(c, r, dev);
    AlignedDelivers(p, c, r, dev);
    CopyDelivers(p, l, |c.log|, c.page, 256, dev);
    var data := PageBytes(l, c.page, 256, dev);
    M.FillsPage(p, data);
    var q := M.WriteAll(p, data);
    forall a {:trigger M.Primary(q.cells)[a]} | 0 <= a < 256
      ensures M.Primary(q.cells)[a] == M.StoredBits(a, Answer(c.log, DmaAddress(c.page, (a + 256 - p.addr) % 256), dev))
    {
      AlignedPage(c, r, c.page, (a + 256 - p.addr) % 256, dev);
    }
  }

  // --- from the fetch of the store to the end of the transfer

  predicate StoresMemory(op: OpType) {
    Stores(op) || IndexedStores(op)
  }

  function StoreMode(op: OpType): Mode
    requires StoresMemory(op)
  {
    match op
    case AbsoluteWrite(_, _) => AbsMode
    case ZeroPageWrite(_, _) => ZpMode
    case ZeroPageIndexWrite(_, index, _) => ZpIndexedMode(index)
    case AbsoluteIndexWrite(_, index, _) => AbsIndexedMode(index)
    case IndexedIndirectWrite(_, _) => IndexedIndirectMode
    case IndirectIndexedWrite(_, _) => IndirectIndexedMode
  }

  lemma StoreIs(c: Core, op: OpType, dev: Device)
    requires StoresMemory(op)
    ensures WriteInstruction(c, op, StoreMode(op), op.src, op.cb, dev) == Instruction(c, op, dev)
  {
    hide ReadInstruction, WriteInstruction, ModifyInstruction, ImmediateInstruction, ImpliedInstruction, PushInstruction,
      PullInstruction, BranchInstruction, CallInstruction, ReturnInstruction, JumpInstruction, JumpIndirectInstruction,
      ReturnFromInterrupt;
  }

  /** A store to $4014 changes nothing in the page either. */
  ghost predicate QuietRequest(page: byte, dev: Device) {
    forall log: seq<Access>, v: byte, i: nat {:trigger dev(log + [Stored(DMA_ADDRESS, v)], DmaAddress(page, i))} ::
      i < 256 ==> dev(log + [Stored(DMA_ADDRESS, v)], DmaAddress(page, i)) == dev(log, DmaAddress(page, i))
  }

  lemma LookKeepsPage(log: seq<Access>, addr: word, page: byte, i: nat, dev: Device)
    requires QuietPage(page, dev) && i < 256
    ensures dev(Look(log, addr, dev), DmaAddress(page, i)) == dev(log, DmaAddress(page, i))
  {
    hide DmaAddress;
    assert dev(log + [Loaded(addr, dev(log, addr))], DmaAddress(page, i)) == dev(log, DmaAddress(page, i));
  }

  lemma ResolveKeepsPage(c: Core, mode: Mode, page: byte, i: nat, dev: Device)
    requires QuietPage(page, dev) && i < 256
    ensures dev(Resolve(c, mode, false, dev).log, DmaAddress(page, i)) == dev(c.log, DmaAddress(page, i))
  {
    hide Look, DmaAddress, QuietPage, Pair, Plus8, ZeroPage, Answer, Indexed, Next;
    var l1 := Look(c.log, c.pc, dev);
    var p1 := Next(c.pc);
    var b := Answer(l1, p1, dev);
    var l2 := Look(l1, p1, dev);
    LookKeepsPage(c.log, c.pc, page, i, dev);
    LookKeepsPage(l1, p1, page, i, dev);
    match mode {
      case AbsMode => LookKeepsPage(l2, Next(p1), page, i, dev);
      case AbsIndexedMode(index) =>
        LookKeepsPage(l2, Next(p1), page, i, dev);
        IndexedLog(Pair(Answer(l2, Next(p1), dev), b), IndexValue(c, index), Look(l2, Next(p1), dev));
      case IndexedIndirectMode =>
        var z := Plus8(b, c.x);
        LookKeepsPage(l2, ZeroPage(b), page, i, dev);
        LookKeepsPage(Look(l2, ZeroPage(b), dev), ZeroPage(z), page, i, dev);
        LookKeepsPage(Look(Look(l2, ZeroPage(b), dev), ZeroPage(z), dev), ZeroPage(Plus8(z, 1)), page, i, dev);
      case IndirectIndexedMode =>
        var l3 := Look(l2, ZeroPage(b), dev);
        LookKeepsPage(l2, ZeroPage(b), page, i, dev);
        LookKeepsPage(l3, ZeroPage(Plus8(b, 1)), page, i, dev);
        IndexedLog(Pair(Answer(l3, ZeroPage(Plus8(b, 1)), dev), Answer(l2, ZeroPage(b), dev)), c.y,
                   Look(l3, ZeroPage(Plus8(b, 1)), dev));
      case _ =>
    }
  }

  lemma IndexedLog(base: word, index: byte, log: seq<Access>)
    ensures Indexed(base, index, log).log == log
  {
  }

  /** What a store to $4014 does to the registers and to the page. */
  lemma StoreRequests(c: Core, op: OpType, i: nat, dev: Device)
    requires StoresMemory(op) && Resolve(c, StoreMode(op), false, dev).addr == DMA_ADDRESS && i < 256
    requires var page := StoredByte(c, op.src, op.cb); QuietPage(page, dev) && QuietRequest(page, dev)
    ensures var d := Instruction(c, op, dev).core;
      var page := StoredByte(c, op.src, op.cb);
      && d.rdy && d.page == page && d.halted == c.halted
      && dev(d.log, DmaAddress(page, i)) == dev(c.log, DmaAddress(page, i))
  {
    hide Resolve, Look, DmaAddress, QuietPage, Behind, StoredByte, Instruction;
    StoreIs(c, op, dev);
    var page := StoredByte(c, op.src, op.cb);
    var o := Resolve(c, StoreMode(op), false, dev);
    ResolveKeepsPage(c, StoreMode(op), page, i, dev);
    LookKeepsPage(o.log, o.unfixed, page, i, dev);
  }

  lemma CycleFlips(m: Machine, lines: Lines, cfg: Config, dev: Device)
    requires m.dma.remaining <= DMA_CYCLES && !m.core.halted
    ensures Cycle(m, lines, cfg, dev).dma.readCycle == !m.dma.readCycle
  {
    hide Exec, CalledIrq, InterruptProgram, IrqDue;
  }

  predicate Parity(readCycle: bool, k: nat) {
    if k % 2 == 0 then readCycle else !readCycle
  }

  lemma {:induction false} ParityAt(run: seq<Machine>, lines: seq<Lines>, k: nat, cfg: Config, dev: Device)
    requires Clocked(run, lines, cfg, dev) && k <= |lines|
    requires forall i {:trigger run[i]} :: 0 <= i < k ==> !run[i].core.halted
    ensures run[k].dma.readCycle == Parity(run[0].dma.readCycle, k)
    decreases k
  {
    hide Cycle;
    if k > 0 {
      ParityAt(run, lines, k - 1, cfg, dev);
      ClockedAt(run, lines, k - 1, cfg, dev);
      CycleFlips(run[k - 1], lines[k - 1], cfg, dev);
    }
  }

  /**
   From the fetch of any store to $4014 while nothing is drawn: after the cycles of the store and 513 or 514
   more, by the parity at the fetch, the machine is at the next instruction with the registers of the
   store, and sprite memory holds the bytes that the stored page had at the fetch.
   */
  lemma StoreCopiesPage(run: seq<Machine>, lines: seq<Lines>, p: M.Port, cfg: Config, dev: Device)
    requires Clocked(run, lines, cfg, dev) && Inv(run[0]) && AtFetch(run[0]) && p.Valid()
    requires var c, op := run[0].core, OpcodeAt(run[0].core, dev);
      && Stable(op) && StoresMemory(op) && Resolve(c, StoreMode(op), false, dev).addr == DMA_ADDRESS
      && QuietPage(StoredByte(c, op.src, op.cb), dev) && QuietRequest(StoredByte(c, op.src, op.cb), dev)
      && var k := Instruction(c, op, dev).cycles;
      |lines| == k + StallCycles(Parity(run[0].dma.readCycle, k))
    ensures var c, op := run[0].core, OpcodeAt(run[0].core, dev);
      var o, end := Instruction(c, op, dev), run[|lines|];
      && Between(end) && end.dma.remaining == 0 && Agree(end.core, o.core.(rdy := false, log := end.core.log))
      && o.core.log <= end.core.log
      && var r := Delivered(p, end.core.log[|o.core.log|..]);
         && r.addr == p.addr && M.Secondary(r.cells) == M.Secondary(p.cells)
         && (forall a {:trigger M.Primary(r.cells)[a]} :: 0 <= a < 256 ==>
               M.Primary(r.cells)[a]
               == M.StoredBits(a, Answer(c.log, DmaAddress(StoredByte(c, op.src, op.cb), (a + 256 - p.addr) % 256), dev)))
  {
    hide Cycle, Between, Instruction, Decode, LoadValue, Stable, StoresMemory, StoreMode, Resolve, Inv, Agree, DmaAddress, Delivered,
      M.Primary, M.Secondary, M.StoredBits, QuietPage, QuietRequest, StoredByte, CopiedLog, Aligned, CopiedByte;
    var c, op := run[0].core, OpcodeAt(run[0].core, dev);
    var o := Instruction(c, op, dev);
    var k := o.cycles;
    StoreAvoids(c, op, dev);
    CyclesPositive(c, op, dev);
    ClockedPrefix(run, lines, k, cfg, dev);
    InstructionCompletes(run[..k + 1], lines[..k], cfg, dev);
    var m := run[k];
    assert run[..k + 1][k] == m;
    StoreRequests(c, op, 0, dev);
    AgreeRequest(m.core, o.core);
    forall i | 0 <= i < k
      ensures !run[i].core.halted
    {
      assert run[..k + 1][i] == run[i];
    }
    ParityAt(run, lines, k, cfg, dev);
    ClockedSuffix(run, lines, k, cfg, dev);
    var part, times := run[k..], lines[k..];
    assert part[0] == m && part[|times|] == run[|lines|];
    TransfersPage(part, times, cfg, dev);
    DmaCopiesPage(part, times, p, cfg, dev);
    SameBetween(m, run[|lines|]);
    AgreeThrough(m.core, run[|lines|].core, o.core);
    forall j | 0 <= j < 256
      ensures dev(o.core.log, DmaAddress(m.core.page, j)) == dev(c.log, DmaAddress(m.core.page, j))
    {
      StoreRequests(c, op, j, dev);
    }
  }

  lemma StoreAvoids(c: Core, op: OpType, dev: Device)
    requires StoresMemory(op)
    ensures AvoidsDma(c, op, dev)
  {
    hide Resolve;
  }

  lemma AgreeRequest(m: Core, d: Core)
    requires Agree(m, d.(rdy := false))
    ensures m.page == d.page && m.halted == d.halted && m.log == d.log
  {
  }

  lemma AgreeThrough(m: Core, x: Core, d: Core)
    requires Agree(m, d.(rdy := false)) && Undisturbed(m, x)
    ensures Agree(x, d.(rdy := false, log := x.log))
  {
  }

  lemma SameBetween(m: Machine, n: Machine)
    requires Between(m) && n.cur == m.cur && n.queue == m.queue
    ensures Between(n)
  {
    hide InterruptProgram;
  }
}
