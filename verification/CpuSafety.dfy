/**
 What every reachable CPU state keeps: the queue of micro-operations never overflows, work is only
 scheduled behind an empty queue, every instruction is finite, and the two status bits that exist on
 the stack only stay clear.
 */
module CpuSafety {
  import opened Bits
  import opened CpuTypes
  import opened CpuAlu
  import opened CpuExec
  import opened CpuMachine
  import opened Opcodes

  const CAPACITY := 8

  /** How many more micro-operations `op` may lead to beyond itself. */
  function Extra(op: MicroOp): nat {
    match op
    case FetchOpcode => 7
    case FetchOperandLo(BRANCH(_)) => 2
    case BranchIncrement(_) => 1
    case ReadPageCrossAware(_, _, true, _) => 1
    case _ => 0
  }

  /** Micro-operations that schedule nothing and do not meet an unreachable case. */
  predicate Sane(op: MicroOp) {
    && !op.FetchOpcode?
    && (CallbackOf(op).BRANCH? ==> op.FetchOperandLo?)
    && (CallbackOf(op).COPY? ==> op.ReadAbsolute? && op.cb == COPY(AddressSource.Address(0xFFFE), IrqVecCandidate))
    && (op.Read? || op.Write? || op.StackPop? || op.StackPeek? || op.ReadPageCrossAware? || op.DummyReadAdd? ==>
          op.to != IrqVecCandidate)
    && (op.ReadZeroPage? || op.ReadAbsolute? ==> op.to != IrqVecCandidate && op.save != IrqVecCandidate)
    && (op.ReadPageCrossAware? ==> IndexRegister(op.index) && !op.cb.LockIrqVec? && !op.cb.ExitIrq?)
  }

  /** Only the last of the pending micro-operations may schedule more. */
  ghost predicate Orderly(ops: seq<MicroOp>) {
    && (forall i {:trigger ops[i]} :: 0 <= i < |ops| ==> Sane(ops[i]))
    && (forall i {:trigger ops[i]} :: 0 <= i < |ops| - 1 ==> Extra(ops[i]) == 0)
  }

  /** The micro-operations from the current one to the end of the instruction or sequence. */
  function Budget(cur: MicroOp, queue: seq<MicroOp>): nat {
    1 + |queue| + if queue == [] then Extra(cur) else Extra(queue[|queue| - 1])
  }

  ghost predicate Scheduled(cur: MicroOp, queue: seq<MicroOp>) {
    && Budget(cur, queue) <= CAPACITY
    && if cur.FetchOpcode? then queue == [] else Orderly([cur] + queue)
  }

  predicate StackBitsClear(p: byte) {
    p & 0x30 == 0
  }

  ghost predicate Inv(m: Machine) {
    && Scheduled(m.cur, m.queue)
    && StackBitsClear(m.core.p)
    && !m.core.rdy
    && m.dma.remaining <= DMA_CYCLES
    && (m.dma.remaining > 0 ==> m.irq.inIrq)
  }

  // --- programs

  /** `ops` can follow an opcode fetch. */
  ghost predicate Loadable(ops: seq<MicroOp>) {
    1 <= |ops| && Orderly(ops) && |ops| + Extra(ops[|ops| - 1]) <= 7
  }

  lemma SimpleLoadable(op: OpType)
    requires Entry(op) && Simple(op)
    ensures Loadable(SimpleProgram(op))
  {
  }

  lemma ReadsLoadable(op: OpType)
    requires Entry(op) && Reads(op)
    ensures Loadable(ReadsProgram(op))
  {
  }

  lemma AbsoluteIndexReadLoadable(op: OpType)
    requires Entry(op) && op.AbsoluteIndexRead?
    ensures Loadable(IndexedReadsProgram(op))
  {
  }

  lemma IndexedIndirectReadLoadable(op: OpType)
    requires Entry(op) && op.IndexedIndirectRead?
    ensures Loadable(IndexedReadsProgram(op))
  {
  }

  lemma IndirectIndexedReadLoadable(op: OpType)
    requires Entry(op) && op.IndirectIndexedRead?
    ensures Loadable(IndexedReadsProgram(op))
  {
  }

  lemma IndexedReadsLoadable(op: OpType)
    requires Entry(op) && IndexedReads(op)
    ensures Loadable(IndexedReadsProgram(op))
  {
    hide Entry, Loadable, IndexedReadsProgram;
    if op.AbsoluteIndexRead? {
      AbsoluteIndexReadLoadable(op);
    } else if op.IndexedIndirectRead? {
      IndexedIndirectReadLoadable(op);
    } else {
      IndirectIndexedReadLoadable(op);
    }
  }

  lemma StoresLoadable(op: OpType)
    requires Entry(op) && Stores(op)
    ensures Loadable(StoresProgram(op))
  {
  }

  lemma AbsoluteIndexWriteLoadable(op: OpType)
    requires Entry(op) && op.AbsoluteIndexWrite?
    ensures Loadable(IndexedStoresProgram(op))
  {
  }

  lemma IndexedIndirectWriteLoadable(op: OpType)
    requires Entry(op) && op.IndexedIndirectWrite?
    ensures Loadable(IndexedStoresProgram(op))
  {
  }

  lemma IndirectIndexedWriteLoadable(op: OpType)
    requires Entry(op) && op.IndirectIndexedWrite?
    ensures Loadable(IndexedStoresProgram(op))
  {
  }

  lemma IndexedStoresLoadable(op: OpType)
    requires Entry(op) && IndexedStores(op)
    ensures Loadable(IndexedStoresProgram(op))
  {
    hide Entry, Loadable, IndexedStoresProgram;
    if op.AbsoluteIndexWrite? {
      AbsoluteIndexWriteLoadable(op);
    } else if op.IndexedIndirectWrite? {
      IndexedIndirectWriteLoadable(op);
    } else {
      IndirectIndexedWriteLoadable(op);
    }
  }

  lemma AbsoluteRMWLoadable(op: OpType)
    requires Entry(op) && op.AbsoluteRMW?
    ensures Loadable(ModifiesProgram(op))
  {
  }

  lemma ZeroPageRMWLoadable(op: OpType)
    requires Entry(op) && op.ZeroPageRMW?
    ensures Loadable(ModifiesProgram(op))
  {
  }

  lemma ZeroPageIndexRMWLoadable(op: OpType)
    requires Entry(op) && op.ZeroPageIndexRMW?
    ensures Loadable(ModifiesProgram(op))
  {
  }

  lemma ModifiesLoadable(op: OpType)
    requires Entry(op) && Modifies(op)
    ensures Loadable(ModifiesProgram(op))
  {
    hide Entry, Loadable, ModifiesProgram;
    if op.AbsoluteRMW? {
      AbsoluteRMWLoadable(op);
    } else if op.ZeroPageRMW? {
      ZeroPageRMWLoadable(op);
    } else {
      ZeroPageIndexRMWLoadable(op);
    }
  }

  lemma AbsoluteIndexRMWLoadable(op: OpType)
    requires Entry(op) && op.AbsoluteIndexRMW?
    ensures Loadable(IndexedModifiesProgram(op))
  {
  }

  lemma IndexedIndirectRMWLoadable(op: OpType)
    requires Entry(op) && op.IndexedIndirectRMW?
    ensures Loadable(IndexedModifiesProgram(op))
  {
  }

  lemma IndirectIndexedRMWLoadable(op: OpType)
    requires Entry(op) && op.IndirectIndexedRMW?
    ensures Loadable(IndexedModifiesProgram(op))
  {
  }

  lemma IndexedModifiesLoadable(op: OpType)
    requires Entry(op) && IndexedModifies(op)
    ensures Loadable(IndexedModifiesProgram(op))
  {
    hide Entry, Loadable, IndexedModifiesProgram;
    if op.AbsoluteIndexRMW? {
      AbsoluteIndexRMWLoadable(op);
    } else if op.IndexedIndirectRMW? {
      IndexedIndirectRMWLoadable(op);
    } else {
      IndirectIndexedRMWLoadable(op);
    }
  }

  lemma JSRLoadable(op: OpType)
    requires Entry(op) && op.JSR?
    ensures Loadable(JumpsProgram(op))
  {
  }

  lemma RTSLoadable(op: OpType)
    requires Entry(op) && op.RTS?
    ensures Loadable(JumpsProgram(op))
  {
  }

  lemma JmpAbsoluteLoadable(op: OpType)
    requires Entry(op) && op.JmpAbsolute?
    ensures Loadable(JumpsProgram(op))
  {
  }

  lemma JmpIndirectLoadable(op: OpType)
    requires Entry(op) && op.JmpIndirect?
    ensures Loadable(JumpsProgram(op))
  {
  }

  lemma JumpsLoadable(op: OpType)
    requires Entry(op) && Jumps(op)
    ensures Loadable(JumpsProgram(op))
  {
    hide Entry, Loadable, JumpsProgram;
    if op.JSR? {
      JSRLoadable(op);
    } else if op.RTS? {
      RTSLoadable(op);
    } else if op.JmpAbsolute? {
      JmpAbsoluteLoadable(op);
    } else {
      JmpIndirectLoadable(op);
    }
  }

  lemma BRKLoadable(op: OpType)
    requires Entry(op) && op.BRK?
    ensures Loadable(PullsProgram(op))
  {
  }

  lemma RTILoadable(op: OpType)
    requires Entry(op) && op.RTI?
    ensures Loadable(PullsProgram(op))
  {
  }

  lemma PLLoadable(op: OpType)
    requires Entry(op) && op.PL?
    ensures Loadable(PullsProgram(op))
  {
  }

  lemma PullsLoadable(op: OpType)
    requires Entry(op) && Pulls(op)
    ensures Loadable(PullsProgram(op))
  {
    hide Entry, Loadable, PullsProgram;
    if op.BRK? {
      BRKLoadable(op);
    } else if op.RTI? {
      RTILoadable(op);
    } else {
      PLLoadable(op);
    }
  }

  lemma CorruptsLoadable(op: OpType)
    requires Entry(op) && Corrupts(op)
    ensures Loadable(CorruptsProgram(op))
  {
    if op.IndirectIndexedWriteSHA? {
    } else {
      CorruptingStoreLoadable(op);
    }
  }

  lemma CorruptingStoreLoadable(op: OpType)
    requires op.AbsoluteIndexCorruptingWrite?
    ensures Loadable(CorruptsProgram(op))
  {
  }

  lemma ProgramLoadable(op: OpType)
    requires Entry(op)
    ensures Loadable(Program(op))
  {
    hide SimpleProgram, ReadsProgram, IndexedReadsProgram, StoresProgram, IndexedStoresProgram, ModifiesProgram,
      IndexedModifiesProgram, JumpsProgram, PullsProgram, CorruptsProgram, Loadable, Entry;
    if Simple(op) {
      SimpleLoadable(op);
    } else if Reads(op) {
      ReadsLoadable(op);
    } else if IndexedReads(op) {
      IndexedReadsLoadable(op);
    } else if Stores(op) {
      StoresLoadable(op);
    } else if IndexedStores(op) {
      IndexedStoresLoadable(op);
    } else if Modifies(op) {
      ModifiesLoadable(op);
    } else if IndexedModifies(op) {
      IndexedModifiesLoadable(op);
    } else if Jumps(op) {
      JumpsLoadable(op);
    } else if Pulls(op) {
      PullsLoadable(op);
    } else {
      CorruptsLoadable(op);
    }
  }

  // --- the status register

  predicate StatusMask(mask: byte) {
    mask & 0x30 == 0
  }

  lemma FlagsKeep(p: byte, mask: byte, on: bool)
    requires StackBitsClear(p) && StatusMask(mask)
    ensures StackBitsClear(WithFlag(p, mask, on))
  {
  }

  lemma StatusMasks()
    ensures StatusMask(CARRY) && StatusMask(ZERO) && StatusMask(IRQ_DISABLE) && StatusMask(DECIMAL)
    ensures StatusMask(OVERFLOW) && StatusMask(NEGATIVE)
  {
  }

  /** Every way of changing single flags keeps the two stack-only bits clear. */
  lemma AllFlagsKeep()
    ensures forall p: byte, mask: byte, on: bool {:trigger WithFlag(p, mask, on)} ::
      StackBitsClear(p) && StatusMask(mask) ==> StackBitsClear(WithFlag(p, mask, on))
    ensures StatusMask(CARRY) && StatusMask(ZERO) && StatusMask(IRQ_DISABLE) && StatusMask(DECIMAL)
    ensures StatusMask(OVERFLOW) && StatusMask(NEGATIVE)
  {
    StatusMasks();
    forall p: byte, mask: byte, on: bool | StackBitsClear(p) && StatusMask(mask)
      ensures StackBitsClear(WithFlag(p, mask, on))
    {
      FlagsKeep(p, mask, on);
    }
  }

  lemma NzKeeps(p: byte, v: byte)
    requires StackBitsClear(p)
    ensures StackBitsClear(WithNZ(p, v))
  {
    hide WithFlag, Flag, StackBitsClear, StatusMask;
    AllFlagsKeep();
  }

  lemma ComparedKeeps(p: byte, r: byte, m: byte)
    requires StackBitsClear(p)
    ensures StackBitsClear(Compared(p, r, m))
  {
    hide WithFlag, Flag, StackBitsClear, StatusMask, Less, Minus, And, SumByte, SumCarry, SumOverflow,
      DifferenceOverflow;
    AllFlagsKeep();
  }

  lemma BitKeeps(p: byte, a: byte, m: byte)
    requires StackBitsClear(p)
    ensures StackBitsClear(BitFlags(p, a, m))
  {
    hide WithFlag, Flag, StackBitsClear, StatusMask, Less, Minus, And, SumByte, SumCarry, SumOverflow,
      DifferenceOverflow;
    AllFlagsKeep();
  }

  lemma ArrKeeps(p: byte, v: byte)
    requires StackBitsClear(p)
    ensures StackBitsClear(ArrFlags(p, v))
  {
    hide WithFlag, Flag, StackBitsClear, StatusMask, Less, Minus, And, SumByte, SumCarry, SumOverflow,
      DifferenceOverflow;
    AllFlagsKeep();
  }

  lemma ShiftKeeps(p: byte, s: Shifted)
    requires StackBitsClear(p)
    ensures StackBitsClear(ShiftFlags(p, s))
  {
    hide WithFlag, Flag, StackBitsClear, StatusMask, Less, Minus, And, SumByte, SumCarry, SumOverflow,
      DifferenceOverflow;
    AllFlagsKeep();
  }

  lemma SumKeeps(p: byte, a: byte, m: byte)
    requires StackBitsClear(p)
    ensures StackBitsClear(SumFlags(p, a, m))
  {
    hide WithFlag, Flag, StackBitsClear, StatusMask, Less, Minus, And, SumByte, SumCarry, SumOverflow,
      DifferenceOverflow;
    AllFlagsKeep();
  }

  lemma DifferenceKeeps(p: byte, a: byte, m: byte)
    requires StackBitsClear(p)
    ensures StackBitsClear(DifferenceFlags(p, a, m))
  {
    hide WithFlag, Flag, StackBitsClear, StatusMask, Less, Minus, And, SumByte, SumCarry, SumOverflow,
      DifferenceOverflow;
    AllFlagsKeep();
  }

  lemma FlagPKeeps(p: byte, cb: Callback)
    requires StackBitsClear(p)
    ensures StackBitsClear(FlagP(p, cb))
  {
    hide WithFlag, StackBitsClear, StatusMask;
    StatusMasks();
    match cb {
      case CLC => FlagsKeep(p, CARRY, false);
      case CLD => FlagsKeep(p, DECIMAL, false);
      case CLI => FlagsKeep(p, IRQ_DISABLE, false);
      case CLV => FlagsKeep(p, OVERFLOW, false);
      case SEC => FlagsKeep(p, CARRY, true);
      case SED => FlagsKeep(p, DECIMAL, true);
      case SEI => FlagsKeep(p, IRQ_DISABLE, true);
      case _ =>
    }
  }

  lemma ArithmeticPKeeps(c: Core, cb: Callback)
    requires StackBitsClear(c.p)
    ensures StackBitsClear(ArithmeticP(c, cb))
  {
    hide WithFlag, WithNZ, Compared, BitFlags, ArrFlags, ShiftFlags, SumFlags, DifferenceFlags, Flag, StackBitsClear,
      StatusMask, AluA, AluX, AluY, AluDb, ShiftLeft, ShiftRight, RotateLeft, RotateRight, And, CarryOf, Complement;
    if cb.ADC? {
      SumKeeps(c.p, c.a, c.db);
    } else if cb.BIT? {
      BitKeeps(c.p, c.a, c.db);
    } else if cb.SBC? {
      DifferenceKeeps(c.p, c.a, Complement(c.db));
    } else if cb.ARR? {
      ArrKeeps(c.p, AluA(c, cb));
    } else if cb.CMP? || cb.CPX? || cb.CPY? || cb.SBX? {
      ComparedPKeeps(c, cb);
    } else if cb.DCP? || cb.ISB? {
      ModifiedPKeeps(c, cb);
    }
  }

  lemma ComparedPKeeps(c: Core, cb: Callback)
    requires StackBitsClear(c.p) && (cb.CMP? || cb.CPX? || cb.CPY? || cb.SBX?)
    ensures StackBitsClear(ArithmeticP(c, cb))
  {
    hide WithNZ, Compared, BitFlags, ArrFlags, SumFlags, DifferenceFlags, StackBitsClear, AluA, AluDb, And, Complement;
    match cb {
      case CMP => ComparedKeeps(c.p, c.a, c.db);
      case CPX => ComparedKeeps(c.p, c.x, c.db);
      case CPY => ComparedKeeps(c.p, c.y, c.db);
      case SBX => ComparedKeeps(c.p, And(c.a, c.x), c.db);
    }
  }

  lemma ModifiedPKeeps(c: Core, cb: Callback)
    requires StackBitsClear(c.p) && (cb.DCP? || cb.ISB?)
    ensures StackBitsClear(ArithmeticP(c, cb))
  {
    hide WithNZ, Compared, BitFlags, ArrFlags, SumFlags, DifferenceFlags, StackBitsClear, AluA, AluDb, And, Complement;
    match cb {
      case DCP =>
        NzKeeps(c.p, AluDb(c, cb));
        ComparedKeeps(WithNZ(c.p, AluDb(c, cb)), c.a, AluDb(c, cb));
      case ISB =>
        NzKeeps(c.p, AluDb(c, cb));
        DifferenceKeeps(WithNZ(c.p, AluDb(c, cb)), c.a, Complement(AluDb(c, cb)));
    }
  }

  lemma ShiftThen(p: byte, s: Shifted, v: byte)
    requires StackBitsClear(p)
    ensures StackBitsClear(WithNZ(ShiftFlags(p, s), v))
  {
    hide StackBitsClear, ShiftFlags, WithNZ;
    ShiftKeeps(p, s);
    NzKeeps(ShiftFlags(p, s), v);
  }

  lemma CombinedPKeeps(c: Core, cb: Callback)
    requires StackBitsClear(c.p)
    ensures StackBitsClear(CombinedP(c, cb))
  {
    hide WithFlag, WithNZ, Compared, BitFlags, ArrFlags, ShiftFlags, SumFlags, DifferenceFlags, Flag, StackBitsClear,
      StatusMask, AluA, AluX, AluY, AluDb, ShiftLeft, ShiftRight, RotateLeft, RotateRight, And, CarryOf, Complement;
    var v := And(c.a, c.db);
    var s := RotateRight(c.db, CarryOf(c));
    StatusMasks();
    NzKeeps(c.p, v);
    match cb {
      case SLO => ShiftThen(c.p, ShiftLeft(c.db), AluA(c, cb));
      case RLA => ShiftThen(c.p, RotateLeft(c.db, CarryOf(c)), AluA(c, cb));
      case SRE => ShiftThen(c.p, ShiftRight(c.db), AluA(c, cb));
      case RRA =>
        ShiftKeeps(c.p, s);
        SumKeeps(ShiftFlags(c.p, s), c.a, s.result);
      case ALR => ShiftKeeps(WithNZ(c.p, v), ShiftRight(v));
      case ANC => FlagsKeep(WithNZ(c.p, v), CARRY, Flag(v, NEGATIVE));
      case _ =>
    }
  }

  lemma ShiftPKeeps(c: Core, cb: Callback)
    requires StackBitsClear(c.p) && IsShift(cb)
    ensures StackBitsClear(ShiftFlags(c.p, ShiftOf(c, cb)))
  {
    hide StackBitsClear, ShiftFlags, ShiftOf;
    ShiftKeeps(c.p, ShiftOf(c, cb));
  }

  lemma AluPKeeps(c: Core, cb: Callback)
    requires StackBitsClear(c.p)
    ensures StackBitsClear(AluP(c, cb))
  {
    hide FlagP, ArithmeticP, CombinedP, NewByte, WithNZ, ShiftFlags, ShiftOf, StackBitsClear;
    if IsFlagCallback(cb) {
      FlagPKeeps(c.p, cb);
    } else if SetsNZ(cb) {
      NzKeeps(c.p, NewByte(c, cb));
    } else if IsShift(cb) {
      ShiftPKeeps(c, cb);
    } else if IsCombinedShift(cb) {
      CombinedPKeeps(c, cb);
    } else {
      ArithmeticPKeeps(c, cb);
    }
  }

  lemma AluKeepsStackBits(c: Core, cb: Callback)
    requires StackBitsClear(c.p)
    ensures StackBitsClear(Alu(c, cb).p)
  {
    hide AluP, AluA, AluX, AluY, AluDb, AluHi, AluSp, StackBitsClear;
    AluPKeeps(c, cb);
  }

  // --- one micro-operation

  lemma PulledClear(v: byte)
    ensures StackBitsClear(StatusPulled(v))
  {
  }

  lemma TargetStatusKeeps(p: byte, to: Target, v: byte)
    requires StackBitsClear(p)
    ensures StackBitsClear(TargetStatus(p, to, v))
  {
    hide StackBitsClear, WithNZ, StatusPulled;
    if FlaggedTarget(to) {
      NzKeeps(p, v);
    } else if to.P? {
      PulledClear(v);
    }
  }

  lemma StoreStatus(c: Core, addr: word, v: byte)
    ensures Store(c, addr, v).p == c.p
  {
  }

  lemma RegisterStatus(c: Core, to: Target, v: byte)
    ensures WriteRegister(c, to, v).p == TargetStatus(c.p, to, v)
  {
    hide TargetStatus, TargetPc;
  }

  lemma WriteKeeps(c: Core, to: Target, v: byte)
    requires StackBitsClear(c.p)
    ensures StackBitsClear(WriteTarget(c, to, v).p)
  {
    hide StackBitsClear, TargetStatus, WriteRegister, Store, TargetAddress;
    if BusTarget(to) {
      StoreStatus(c, TargetAddress(c, to), v);
    } else {
      RegisterStatus(c, to, v);
      TargetStatusKeeps(c.p, to, v);
    }
  }

  /** What a micro-operation may do besides its work: schedule one cheaper one. */
  ghost predicate Bounded(e: Effect, extra: nat) {
    && StackBitsClear(e.core.p)
    && |e.push| <= 1
    && (e.push != [] ==> Sane(e.push[0]) && Extra(e.push[0]) < extra)
  }

  lemma CalledBounded(c: Core, cb: Callback)
    requires StackBitsClear(c.p)
    ensures Bounded(Called(c, cb), CallExtra(cb))
  {
    hide StackBitsClear, Holds, Alu;
    AluKeepsStackBits(c, cb);
  }

  lemma LoadKeeps(c: Core, addr: word, to: Target, dev: Device)
    requires StackBitsClear(c.p)
    ensures StackBitsClear(LoadTo(c, addr, to, dev).p)
  {
    hide StackBitsClear, WriteTarget;
    WriteKeeps(Load(c, addr, dev), to, LoadValue(c, addr, dev));
  }

  lemma AddKeeps(c: Core, addTo: Source, add: Source, save: Target)
    requires StackBitsClear(c.p)
    ensures StackBitsClear(AddTo(c, addTo, add, save).p)
  {
    hide StackBitsClear, WriteTarget, ValueOf, Plus8;
    match (ValueOf(c, addTo), ValueOf(c, add)) {
      case (Some(a), Some(b)) => WriteKeeps(c, save, Plus8(a, b));
      case _ =>
    }
  }

  lemma Rebound(e: Effect, c: Core, extra: nat)
    requires Bounded(e, extra) && StackBitsClear(c.p)
    ensures Bounded(Effect(c, e.push), extra)
  {
  }

  /** What running callback `cb` may schedule. */
  function CallExtra(cb: Callback): nat {
    if cb.BRANCH? then 2 else 0
  }

  lemma ReadBounded(c: Core, from: AddressSource, to: Target, cb: Callback, vec: word, dev: Device)
    requires StackBitsClear(c.p)
    ensures Bounded(ExecRead(c, from, to, cb, vec, dev), CallExtra(cb))
  {
    hide StackBitsClear, Called, LoadTo, AddressOf, Bounded;
    match AddressOf(c, from, vec) {
      case Some(a) =>
        LoadKeeps(c, a, to, dev);
        CalledBounded(LoadTo(c, a, to, dev), cb);
      case None => CalledBounded(c, cb);
    }
  }

  lemma WriteSourceKeeps(c: Core, to: Target, src: Source)
    requires StackBitsClear(c.p)
    ensures StackBitsClear(WriteSource(c, to, src).p)
  {
    hide StackBitsClear, WriteTarget, ValueOf;
    match ValueOf(c, src) {
      case Some(v) => WriteKeeps(c, to, v);
      case None =>
    }
  }

  lemma WriteBounded(c: Core, to: Target, src: Source, pre: bool, cb: Callback)
    requires StackBitsClear(c.p)
    ensures Bounded(ExecWrite(c, to, src, pre, cb), CallExtra(cb))
  {
    hide StackBitsClear, Called, WriteSource, Bounded, CallExtra;
    if pre {
      CalledBounded(c, cb);
      BoundedStatus(Called(c, cb), CallExtra(cb));
      WriteSourceKeeps(Called(c, cb).core, to, src);
      Rebound(Called(c, cb), WriteSource(Called(c, cb).core, to, src), CallExtra(cb));
    } else {
      WriteSourceKeeps(c, to, src);
      CalledBounded(WriteSource(c, to, src), cb);
    }
  }

  lemma BoundedStatus(e: Effect, extra: nat)
    requires Bounded(e, extra)
    ensures StackBitsClear(e.core.p)
  {
  }

  lemma PushBounded(c: Core, src: Source, cb: Callback)
    requires StackBitsClear(c.p)
    ensures Bounded(ExecPush(c, src, cb), CallExtra(cb))
  {
    hide StackBitsClear, Called, Store, ValueOf, Bounded, CallExtra, StackAddress;
    match ValueOf(c, src) {
      case Some(v) =>
        StoreStatus(c, StackAddress(c.sp), v);
        var s := Store(c, StackAddress(c.sp), v);
        CalledBounded(s.(sp := s.sp - 1), cb);
      case None => CalledBounded(c.(sp := c.sp - 1), cb);
    }
  }

  lemma PopBounded(c: Core, to: Target, cb: Callback, dev: Device)
    requires StackBitsClear(c.p)
    ensures Bounded(ExecPop(c, to, cb, dev), CallExtra(cb))
  {
    hide StackBitsClear, Called, WriteTarget, Bounded, CallExtra, StackAddress, LoadValue;
    var a := StackAddress(c.sp);
    var l := Load(c, a, dev);
    var m := l.(sp := l.sp + 1);
    WriteKeeps(m, to, LoadValue(c, a, dev));
    CalledBounded(WriteTarget(m, to, LoadValue(c, a, dev)), cb);
  }

  lemma PageCrossBounded(c: Core, index: Source, to: Target, schedule: bool, cb: Callback, dev: Device)
    requires StackBitsClear(c.p) && IndexRegister(index) && !cb.BRANCH? && to != IrqVecCandidate && !cb.COPY?
    ensures Bounded(ExecPageCross(c, index, to, schedule, cb, dev), if schedule then 1 else 0)
  {
    hide StackBitsClear, Called, LoadTo, Pair, Borrows;
    LoadKeeps(c, Pair(c.hi, c.lo), to, dev);
    CalledBounded(LoadTo(c, Pair(c.hi, c.lo), to, dev), cb);
  }

  lemma DummyAddBounded(c: Core, from: AddressSource, offset: Source, to: Target, cb: Callback, vec: word, dev: Device)
    requires StackBitsClear(c.p)
    ensures Bounded(ExecDummyAdd(c, from, offset, to, cb, vec, dev), CallExtra(cb))
  {
    hide StackBitsClear, Called, WriteTarget, Bounded, CallExtra, LoadValue, ValueOf, AddressOf, Plus8, Low;
    match AddressOf(c, from, vec) {
      case Some(a) =>
        var l := Load(c, a, dev);
        CalledBounded(l, cb);
        match ValueOf(l, offset) {
          case Some(v) =>
            WriteKeeps(l, to, Plus8(Low(a), v));
            CalledBounded(WriteTarget(l, to, Plus8(Low(a), v)), cb);
          case None =>
        }
      case None => CalledBounded(c, cb);
    }
  }

  lemma SteppedStatus(c: Core, incPc: bool)
    ensures Stepped(c, incPc).p == c.p
  {
  }

  /** The common end of the two reading and adding micro-operations. */
  lemma AddCallBounded(l: Core, addTo: Source, add: Source, save: Target, incPc: bool, cb: Callback)
    requires StackBitsClear(l.p)
    ensures Bounded(Called(Stepped(AddTo(l, addTo, add, save), incPc), cb), CallExtra(cb))
  {
    hide StackBitsClear, Called, AddTo, Bounded, CallExtra, Stepped;
    AddKeeps(l, addTo, add, save);
    SteppedStatus(AddTo(l, addTo, add, save), incPc);
    CalledBounded(Stepped(AddTo(l, addTo, add, save), incPc), cb);
  }

  lemma ZeroPageBounded(c: Core, from: AddressSource, offset: Source, to: Target, addTo: Source, add: Source,
                        save: Target, incPc: bool, cb: Callback, vec: word, dev: Device)
    requires StackBitsClear(c.p)
    ensures Bounded(ExecZeroPage(c, from, offset, to, addTo, add, save, incPc, cb, vec, dev), CallExtra(cb))
  {
    hide StackBitsClear, Called, AddTo, Bounded, CallExtra, Stepped, AddressOf, ValueOf, LoadTo, ZeroPage, Plus8, Low;
    match (AddressOf(c, from, vec), ValueOf(c, offset)) {
      case (Some(a), Some(o)) =>
        LoadKeeps(c, ZeroPage(Plus8(Low(a), o)), to, dev);
        AddCallBounded(LoadTo(c, ZeroPage(Plus8(Low(a), o)), to, dev), addTo, add, save, incPc, cb);
      case _ => AddCallBounded(c, addTo, add, save, incPc, cb);
    }
  }

  lemma AbsoluteBounded(c: Core, from: AddressSource, offset: Source, to: Target, addTo: Source, add: Source,
                        save: Target, incPc: bool, cb: Callback, vec: word, dev: Device)
    requires StackBitsClear(c.p)
    ensures Bounded(ExecAbsolute(c, from, offset, to, addTo, add, save, incPc, cb, vec, dev), CallExtra(cb))
  {
    hide StackBitsClear, Called, AddTo, Bounded, CallExtra, Stepped, AddressOf, ValueOf, LoadTo, AddLow;
    match (AddressOf(c, from, vec), ValueOf(c, offset)) {
      case (Some(a), Some(o)) =>
        LoadKeeps(c, AddLow(a, o), to, dev);
        AddCallBounded(LoadTo(c, AddLow(a, o), to, dev), addTo, add, save, incPc, cb);
      case _ => AddCallBounded(c, addTo, add, save, incPc, cb);
    }
  }

  lemma FetchBounded(c: Core, cb: Callback, dev: Device)
    requires StackBitsClear(c.p)
    ensures Bounded(ExecFetchLo(c, cb, dev), CallExtra(cb))
    ensures Bounded(ExecFetchHi(c, cb, dev), CallExtra(cb))
    ensures Bounded(ExecDummy(c, cb, dev), CallExtra(cb))
  {
    hide StackBitsClear, Called, Bounded, CallExtra, LoadValue, Next;
    var l := Load(c, c.pc, dev);
    CalledBounded(l, cb);
    CalledBounded(l.(lo := LoadValue(c, c.pc, dev), pc := Next(c.pc)), cb);
    CalledBounded(l.(hi := LoadValue(c, c.pc, dev), pc := Next(c.pc)), cb);
  }

  lemma BranchBounded(c: Core, src: Source, pc: word, dev: Device)
    requires StackBitsClear(c.p)
    ensures Bounded(ExecBranch(c, src, dev), 1)
    ensures Bounded(ExecFixHi(c, pc, dev), 0)
  {
    hide StackBitsClear, LoadValue, BranchTarget, WithLow, Low, High, ValueOf;
  }

  lemma CorruptingBounded(c: Core, updateSp: bool, cfg: Config, dev: Device)
    requires StackBitsClear(c.p)
    ensures Bounded(ExecCorrupting(c, updateSp, cfg, dev), 0)
  {
    hide StackBitsClear, LoadValue, Borrows, CorruptHigh, CorruptValue, Pair;
  }

  /** A micro-operation other than an opcode fetch schedules at most one, which may lead to less. */
  lemma ExecBounded(c: Core, op: MicroOp, vec: word, cfg: Config, dev: Device)
    requires StackBitsClear(c.p) && Sane(op)
    ensures Bounded(Exec(c, op, vec, cfg, dev), Extra(op))
  {
    hide StackBitsClear, Bounded, ExecFetchOpcode, ExecFetchLo, ExecFetchHi, ExecRead, ExecWrite, ExecPush, ExecPop,
      ExecPeek, ExecPageCross, ExecCorrupting, ExecDummyAdd, ExecDummy, ExecZeroPage, ExecAbsolute, ExecBranch,
      ExecFixHi, LoadTo, Called, StackAddress;
    match op {
      case FetchOperandLo(cb) => FetchBounded(c, cb, dev);
      case FetchOperandHi(cb) => FetchBounded(c, cb, dev);
      case DummyRead(cb) => FetchBounded(c, cb, dev);
      case Read(from, to, cb) => ReadBounded(c, from, to, cb, vec, dev);
      case Write(to, src, pre, cb) => WriteBounded(c, to, src, pre, cb);
      case StackPush(src, cb) => PushBounded(c, src, cb);
      case StackPop(to, cb) => PopBounded(c, to, cb, dev);
      case StackPeek(to, cb) => PeekBounded(c, to, cb, dev);
      case ReadPageCrossAware(index, to, schedule, cb) => PageCrossBounded(c, index, to, schedule, cb, dev);
      case ReadPageCrossCorrupting(updateSp) => CorruptingBounded(c, updateSp, cfg, dev);
      case DummyReadAdd(from, offset, to, cb) => DummyAddBounded(c, from, offset, to, cb, vec, dev);
      case ReadZeroPage(from, offset, to, addTo, add, save, incPc, cb) =>
        ZeroPageBounded(c, from, offset, to, addTo, add, save, incPc, cb, vec, dev);
      case ReadAbsolute(from, offset, to, addTo, add, save, incPc, cb) =>
        AbsoluteBounded(c, from, offset, to, addTo, add, save, incPc, cb, vec, dev);
      case BranchIncrement(src) => BranchBounded(c, src, 0, dev);
      case FixHiBranch(pc) => BranchBounded(c, Source.Absent, pc, dev);
    }
  }

  lemma PeekBounded(c: Core, to: Target, cb: Callback, dev: Device)
    requires StackBitsClear(c.p)
    ensures Bounded(ExecPeek(c, to, cb, dev), CallExtra(cb))
  {
    hide StackBitsClear, Called, LoadTo, Bounded, CallExtra, StackAddress;
    LoadKeeps(c, StackAddress(c.sp), to, dev);
    CalledBounded(LoadTo(c, StackAddress(c.sp), to, dev), cb);
  }

  // --- the queue

  lemma DropFirst(ops: seq<MicroOp>)
    requires Orderly(ops) && ops != []
    ensures Orderly(ops[1..])
  {
  }

  lemma FetchSchedules(c: Core, dev: Device)
    ensures var e := ExecFetchOpcode(c, dev);
      Loadable(e.push) && e.core.p == c.p && !e.core.halted == !c.halted && e.core.rdy == c.rdy
  {
    hide Decode, Program, Loadable, LoadValue, Next;
    var op := Decode(LoadValue(c, c.pc, dev));
    EveryOpcodeIsAnEntry(LoadValue(c, c.pc, dev));
    ProgramLoadable(op);
  }

  /** The pending work after `cur` has run and scheduled `push`. */
  ghost predicate Follows(cur: MicroOp, queue: seq<MicroOp>, push: seq<MicroOp>) {
    if cur.FetchOpcode? then Loadable(push)
    else |push| <= 1 && (push != [] ==> Sane(push[0]) && Extra(push[0]) < Extra(cur))
  }

  /** Nothing is pushed onto a full queue, work is only added behind an empty one, and the rest gets shorter. */
  lemma QueueStep(cur: MicroOp, queue: seq<MicroOp>, push: seq<MicroOp>)
    requires Scheduled(cur, queue) && Follows(cur, queue, push)
    ensures |queue + push| <= CAPACITY
    ensures push != [] ==> queue == []
    ensures var next := queue + push;
      next != [] ==> Scheduled(next[0], next[1..]) && Budget(next[0], next[1..]) < Budget(cur, queue)
  {
    hide Sane;
    var next := queue + push;
    if cur.FetchOpcode? {
      assert next == push;
      assert [next[0]] + next[1..] == next;
    } else {
      var ops := [cur] + queue;
      assert ops[1..] == queue;
      if queue != [] {
        assert Extra(ops[0]) == 0;
        assert push == [];
        assert next == queue;
        assert [next[0]] + next[1..] == next;
        assert ops[|ops| - 1] == queue[|queue| - 1];
        DropFirst(ops);
      } else {
        assert next == push;
        if push != [] {
          assert next[1..] == [];
        }
      }
    }
  }

  lemma InterruptScheduled(vector: word)
    ensures var ops := InterruptProgram(vector); Scheduled(ops[0], ops[1..])
  {
    var ops := InterruptProgram(vector);
    assert [ops[0]] + ops[1..] == ops;
  }

  lemma ResetScheduled()
    ensures var ops := ResetProgram(); Scheduled(ops[0], ops[1..])
  {
    var ops := ResetProgram();
    assert [ops[0]] + ops[1..] == ops;
  }

  lemma FetchScheduled()
    ensures Scheduled(FetchOpcode, [])
  {
  }

  // --- one cycle and whole runs

  /** `Inv` between the micro-operation and the choice of the next one, where only the DMA request may be open. */
  ghost predicate Mid(m: Machine, budget: nat) {
    && StackBitsClear(m.core.p) && !m.core.rdy
    && m.dma.remaining <= DMA_CYCLES && (m.dma.remaining > 0 ==> m.irq.inIrq)
    && |m.queue| <= CAPACITY
    && (m.queue != [] ==> Scheduled(m.queue[0], m.queue[1..]) && Budget(m.queue[0], m.queue[1..]) < budget)
  }

  lemma ExecutedMid(m: Machine, cfg: Config, dev: Device)
    requires Inv(m) && m.dma.remaining == 0
    ensures Mid(DmaStarted(Executed(m, cfg, dev)), Budget(m.cur, m.queue))
    ensures var e := Exec(m.core, m.cur, m.irq.locked, cfg, dev);
      |m.queue + e.push| <= CAPACITY && (e.push != [] ==> m.queue == [])
  {
    hide StackBitsClear, Scheduled, Budget, Exec, CalledIrq, Loadable, Bounded;
    var e := Exec(m.core, m.cur, m.irq.locked, cfg, dev);
    assert StackBitsClear(e.core.p) && Follows(m.cur, m.queue, e.push) by {
      ExecFollows(m.core, m.cur, m.queue, m.irq.locked, cfg, dev);
    }
    QueueStep(m.cur, m.queue, e.push);
  }

  lemma ExecFollows(c: Core, cur: MicroOp, queue: seq<MicroOp>, vec: word, cfg: Config, dev: Device)
    requires Scheduled(cur, queue) && StackBitsClear(c.p)
    ensures var e := Exec(c, cur, vec, cfg, dev);
      StackBitsClear(e.core.p) && Follows(cur, queue, e.push)
  {
    if cur.FetchOpcode? {
      hide StackBitsClear, Loadable, ExecFetchOpcode, Scheduled;
      assert Exec(c, cur, vec, cfg, dev) == ExecFetchOpcode(c, dev);
      hide Exec;
      FetchSchedules(c, dev);
    } else {
      hide StackBitsClear, Exec, Sane;
      assert ([cur] + queue)[0] == cur;
      ExecBounded(c, cur, vec, cfg, dev);
    }
  }

  lemma SampledMid(m: Machine, lines: Lines, budget: nat)
    requires Mid(m, budget)
    ensures Mid(Sampled(m, lines), budget)
  {
    hide StackBitsClear, Scheduled, Budget;
  }

  lemma AdvanceInv(m: Machine, budget: nat)
    requires Mid(m, budget)
    ensures Inv(Advance(m))
    ensures m.queue != [] ==> Budget(Advance(m).cur, Advance(m).queue) < budget
  {
    hide StackBitsClear, Scheduled, Budget, InterruptProgram, IrqDue;
    InterruptScheduled(NMI_VECTOR);
    InterruptScheduled(IRQ_VECTOR);
    FetchScheduled();
  }

  lemma PolledInv(m: Machine)
    requires Inv(m)
    ensures Inv(Polled(m)) && Polled(m).core == m.core && Polled(m).cur == m.cur && Polled(m).queue == m.queue
    ensures Polled(m).dma == m.dma && Polled(m).irq.locked == m.irq.locked && Polled(m).irq.inIrq == m.irq.inIrq
  {
    hide StackBitsClear, Scheduled;
  }

  // --- DMA cycles

  lemma IdleCallbacks(c: Core)
    ensures Called(c, NoOp) == Effect(c, []) && Called(c, ExitIrq) == Effect(c, [])
  {
  }

  lemma DmaRead(c: Core, from: AddressSource, addr: word, vec: word, cfg: Config, dev: Device)
    requires AddressOf(c, from, vec) == Some(addr)
    ensures Exec(c, MicroOp.Read(from, Target.Nowhere, NoOp), vec, cfg, dev).core == Load(c, addr, dev)
    ensures Exec(c, MicroOp.Read(from, Target.DataBus, NoOp), vec, cfg, dev).core
         == Load(c, addr, dev).(db := LoadValue(c, addr, dev))
  {
    hide Called, AddressOf, LoadValue, Store, TargetAddress;
    IdleCallbacks(LoadTo(c, addr, Target.Nowhere, dev));
    IdleCallbacks(LoadTo(c, addr, Target.DataBus, dev));
  }

  lemma DmaWrite(c: Core, cb: Callback, vec: word, cfg: Config, dev: Device)
    requires cb.NoOp? || cb.ExitIrq?
    ensures Exec(c, MicroOp.Write(OamWrite, Source.DataBus, false, cb), vec, cfg, dev).core
         == c.(log := c.log + [Stored(OAM_ADDRESS, c.db)])
  {
    hide Called, LoadValue;
    IdleCallbacks(WriteSource(c, OamWrite, Source.DataBus));
  }

  lemma DmaIdleEffect(m: Machine, cfg: Config, dev: Device)
    ensures DmaIdle(m, cfg, dev) == m.(core := Load(m.core, Pair(m.core.hi, m.core.lo), dev))
  {
    hide Exec, Pair, Load;
    DmaRead(m.core, Latch, Pair(m.core.hi, m.core.lo), m.irq.locked, cfg, dev);
  }

  lemma DmaReadEffect(m: Machine, cfg: Config, dev: Device)
    requires 2 <= m.dma.remaining <= 512 && m.dma.remaining % 2 == 0
    ensures var a := DmaAddress(m.core.page, 256 - m.dma.remaining / 2);
      DmaTransfer(m, cfg, dev) == m.(core := Load(m.core, a, dev).(db := LoadValue(m.core, a, dev)))
  {
    hide Exec, DmaAddress, Load, LoadValue;
    var a := DmaAddress(m.core.page, 256 - m.dma.remaining / 2);
    DmaRead(m.core, AddressSource.Address(a), a, m.irq.locked, cfg, dev);
  }

  lemma DmaWriteEffect(m: Machine, cfg: Config, dev: Device)
    requires 1 <= m.dma.remaining <= 511 && m.dma.remaining % 2 == 1
    ensures DmaTransfer(m, cfg, dev)
         == m.(core := m.core.(log := m.core.log + [Stored(OAM_ADDRESS, m.core.db)]),
               irq := if m.dma.remaining == 1 then m.irq.(inIrq := false) else m.irq)
  {
    hide Exec;
    DmaWrite(m.core, if m.dma.remaining == 1 then ExitIrq else NoOp, m.irq.locked, cfg, dev);
  }

  lemma LoadFrame(c: Core, addr: word, dev: Device)
    ensures var d := Load(c, addr, dev);
      d.p == c.p && d.rdy == c.rdy && d.halted == c.halted
  {
  }

  lemma DmaCycleInv(m: Machine, cfg: Config, dev: Device)
    requires Inv(m) && m.dma.remaining > 0
    ensures var e := DmaCycle(m, cfg, dev);
      Inv(e) && e.cur == m.cur && e.queue == m.queue && e.dma.remaining < m.dma.remaining && e.nmi == m.nmi
  {
    hide StackBitsClear, Scheduled, LoadValue, Pair, DmaIdle, DmaTransfer, DmaAddress, Load;
    var c := m.core;
    if m.dma.remaining == DMA_CYCLES || (m.dma.remaining == DMA_CYCLES - 1 && !m.dma.readCycle) {
      DmaIdleEffect(m, cfg, dev);
      LoadFrame(c, Pair(c.hi, c.lo), dev);
    } else {
      var t := if m.dma.remaining == DMA_CYCLES - 1 then m.(dma := m.dma.(remaining := 512)) else m;
      if t.dma.remaining % 2 == 0 {
        DmaReadEffect(t, cfg, dev);
        LoadFrame(c, DmaAddress(c.page, 256 - t.dma.remaining / 2), dev);
      } else {
        DmaWriteEffect(t, cfg, dev);
      }
    }
  }

  lemma CycleInv(m: Machine, lines: Lines, cfg: Config, dev: Device)
    requires Inv(m)
    ensures Inv(Cycle(m, lines, cfg, dev))
  {
    hide StackBitsClear, Scheduled, Budget, Polled, Executed, DmaStarted, Sampled, Advance, DmaCycle;
    if !m.core.halted {
      var t := m.(dma := m.dma.(readCycle := !m.dma.readCycle));
      if t.dma.remaining > 0 {
        DmaCycleInv(t, cfg, dev);
      } else {
        PolledInv(t);
        ExecutedMid(Polled(t), cfg, dev);
        var d := DmaStarted(Executed(Polled(t), cfg, dev));
        SampledMid(d, lines, Budget(t.cur, t.queue));
        AdvanceInv(Sampled(d, lines), Budget(t.cur, t.queue));
      }
    }
  }
}
