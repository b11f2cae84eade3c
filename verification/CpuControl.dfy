/** The instructions that work on registers, the stack or the program counter, in micro-operations and at once. */
module CpuControl {
  import opened Bits
  import opened CpuTypes
  import opened CpuAlu
  import opened CpuExec
  import opened CpuFlow
  import opened CpuAddressing
  import opened CpuAccess
  import opened CpuRefinement
  import opened InstructionSet
  import opened Opcodes

  /** The scheduled micro-operations take the cycles of `o` and end in its registers and bus accesses. */
  ghost predicate Amounts(c: Core, r: Core, o: Outcome, vec: word, cfg: Config, dev: Device) {
    Leads(Fetching(c), o.cycles, Work(r, []), vec, cfg, dev) && Agree(r, o.core)
  }

  // --- the effect of single micro-operations

  lemma DoDummy(c: Core, cb: Callback, vec: word, cfg: Config, dev: Device)
    ensures Exec(c, DummyRead(cb), vec, cfg, dev) == Called(Load(c, c.pc, dev), cb)
    ensures Exec(c, DummyRead(NoOp), vec, cfg, dev) == Effect(Load(c, c.pc, dev), [])
  {
    hide Exec, Called, Load;
    IsFetch(c, cb, vec, cfg, dev);
    IsFetch(c, NoOp, vec, cfg, dev);
    NoCall(Load(c, c.pc, dev));
  }

  lemma DoPush(c: Core, src: Source, v: byte, vec: word, cfg: Config, dev: Device)
    requires ValueOf(c, src) == Some(v)
    ensures Exec(c, StackPush(src, NoOp), vec, cfg, dev) == Effect(Pushed(c, v), [])
    ensures Exec(c, StackPush(src, LockIrqVec), vec, cfg, dev) == Effect(Pushed(c, v), [])
  {
    hide Exec, ValueOf, StackAddress;
    IsStack(c, Target.Nowhere, src, NoOp, vec, cfg, dev);
    IsStack(c, Target.Nowhere, src, LockIrqVec, vec, cfg, dev);
    PushForm(c, src, v, NoOp);
    PushForm(c, src, v, LockIrqVec);
    hide ExecPush;
    Untouching(Pushed(c, v));
  }

  lemma PushForm(c: Core, src: Source, v: byte, cb: Callback)
    requires ValueOf(c, src) == Some(v)
    ensures ExecPush(c, src, cb) == Called(Pushed(c, v), cb)
  {
    hide ValueOf, StackAddress, Called;
    StoreKeepsSp(c, StackAddress(c.sp), v);
  }

  lemma StoreKeepsSp(c: Core, addr: word, v: byte)
    ensures Store(c, addr, v).sp == c.sp
  {
  }

  lemma Untouching(c: Core)
    ensures Called(c, NoOp) == Effect(c, []) && Called(c, LockIrqVec) == Effect(c, []) && Called(c, ExitIrq) == Effect(c, [])
    ensures Called(c, COPY(AddressSource.Address(0xFFFE), IrqVecCandidate)) == Effect(c, [])
  {
  }

  lemma DoIncSp(c: Core, vec: word, cfg: Config, dev: Device)
    ensures Exec(c, IncStackPointer(), vec, cfg, dev) == Effect(c.(sp := Inc(c.sp)), [])
  {
    hide Exec, Called, TargetPc, TargetStatus;
    IsZeroPage(c, AddressSource.Absent, Source.Absent, Target.Nowhere, Source.SP, One, Target.SP, false, NoOp, vec, cfg, dev);
    SpTarget(c, Plus8(c.sp, 1));
    NoCall(c.(sp := Inc(c.sp)));
    OneMore(c.sp);
    hide WriteTarget, Plus8, Inc;
  }

  lemma OneMore(b: byte)
    ensures Plus8(b, 1) == Inc(b)
  {
  }

  lemma SpTarget(c: Core, v: byte)
    ensures WriteTarget(c, Target.SP, v) == c.(sp := v)
  {
  }

  lemma DoPop(c: Core, to: Target, vec: word, cfg: Config, dev: Device)
    requires !BusTarget(to)
    ensures var a := StackAddress(c.sp);
      Exec(c, StackPop(to, NoOp), vec, cfg, dev) == Effect(WriteRegister(Load(c, a, dev).(sp := Inc(c.sp)), to, LoadValue(c, a, dev)), [])
  {
    hide Exec, Called, Load, LoadValue, StackAddress, WriteRegister;
    IsStack(c, to, Source.Absent, NoOp, vec, cfg, dev);
    var a := StackAddress(c.sp);
    LoadKeepsSp(c, a, dev);
    NoCall(WriteRegister(Load(c, a, dev).(sp := Inc(c.sp)), to, LoadValue(c, a, dev)));
  }

  lemma LoadKeepsSp(c: Core, a: word, dev: Device)
    ensures Load(c, a, dev).sp == c.sp
  {
  }

  lemma DoPeek(c: Core, to: Target, vec: word, cfg: Config, dev: Device)
    requires !BusTarget(to)
    ensures var a := StackAddress(c.sp);
      Exec(c, StackPeek(to, NoOp), vec, cfg, dev) == Effect(WriteRegister(Load(c, a, dev), to, LoadValue(c, a, dev)), [])
  {
    hide Exec, Called, Load, LoadValue, StackAddress, WriteRegister;
    IsStack(c, to, Source.Absent, NoOp, vec, cfg, dev);
    var a := StackAddress(c.sp);
    NoCall(WriteRegister(Load(c, a, dev), to, LoadValue(c, a, dev)));
  }

  lemma PcHalves(w: word, hi: byte, lo: byte)
    ensures WithLow(WithHigh(w, hi), lo) == Pair(hi, lo) && WithHigh(WithLow(w, lo), hi) == Pair(hi, lo)
  {
  }

  lemma PcTargets(c: Core, v: byte)
    ensures WriteTarget(c, Target.PCH, v) == c.(pc := WithHigh(c.pc, v))
    ensures WriteTarget(c, Target.PCL, v) == c.(pc := WithLow(c.pc, v))
    ensures WriteRegister(c, Target.PCH, v) == c.(pc := WithHigh(c.pc, v))
    ensures WriteRegister(c, Target.PCL, v) == c.(pc := WithLow(c.pc, v))
    ensures WriteRegister(c, Target.P, v) == c.(p := StatusPulled(v))
  {
    hide WithHigh, WithLow, StatusPulled;
  }

  lemma DoJump(c: Core, from: AddressSource, addr: word, offset: byte, low: Source, v: byte, vec: word, cfg: Config, dev: Device)
    requires AddressOf(c, from, vec) == Some(addr) && ((low == Source.LO && v == c.lo) || (low == Source.DataBus && v == c.db))
    ensures var a := AddLow(addr, offset);
      Exec(c, JumpHi(from, Source.Constant(offset), low, NoOp), vec, cfg, dev)
         == Effect(Load(c, a, dev).(pc := Pair(LoadValue(c, a, dev), v)), [])
  {
    hide Exec, Called, AddressOf, LoadValue, Load, AddLow, WriteTarget, Pair, WithHigh, WithLow, Plus8;
    IsAbsolute(c, from, Source.Constant(offset), Target.PCH, low, Zero, Target.PCL, false, NoOp, vec, cfg, dev);
    var a := AddLow(addr, offset);
    var l := Load(c, a, dev);
    var h := LoadValue(c, a, dev);
    LoadKeepsLatches(c, a, dev);
    PcTargets(l, h);
    var m := l.(pc := WithHigh(l.pc, h));
    SmallSums(0, v);
    PcTargets(m, v);
    PcHalves(l.pc, h, v);
    NoCall(l.(pc := Pair(h, v)));
  }

  lemma LoadKeepsLatches(c: Core, a: word, dev: Device)
    ensures Load(c, a, dev).lo == c.lo && Load(c, a, dev).db == c.db && Load(c, a, dev).pc == c.pc
  {
  }

  lemma DoStep(c: Core, vec: word, cfg: Config, dev: Device)
    ensures Exec(c, Untouched(true, NoOp), vec, cfg, dev) == Effect(c.(pc := Next(c.pc)), [])
  {
    hide Exec, Called, Next, LoadTo, WriteTarget, Plus8, ZeroPage, Low;
    IsZeroPage(c, AddressSource.Absent, Source.Absent, Target.Nowhere, Source.Absent, Source.Absent, Target.Nowhere, true, NoOp, vec, cfg, dev);
    NoCall(c.(pc := Next(c.pc)));
  }

  // --- one and two byte instructions

  lemma ImpliedRefines(c: Core, op: OpType, vec: word, cfg: Config, dev: Device) returns (r: Core)
    requires Ready(c) && op == Decode(LoadValue(c, c.pc, dev)) && Entry(op) && op.AccumulatorOrImplied?
    ensures Amounts(c, r, ImpliedInstruction(c, op, op.cb, dev), vec, cfg, dev)
  {
    hide Decode, Program, Leads, Exec, Ready, Called, Ordinary, PlainCallback, Next, Behind;
    var f := OpcodeFetched(c, op, dev);
    Begins(c, op, vec, cfg, dev);
    ImpliedProgram(op);
    DoDummy(f, op.cb, vec, cfg, dev);
    r := Called(Load(f, f.pc, dev), op.cb).core;
    NoBranch(Load(f, f.pc, dev), op.cb) by { ImpliedPlain(op); }
    Then(Fetching(c), 1, f, [DummyRead(op.cb)], DummyRead(op.cb), r, [], vec, cfg, dev);
    BehindByte(c, op);
    hide LoadValue;
    assert Load(f, f.pc, dev) == Begun(c, op, Look(Look(c.log, c.pc, dev), Next(c.pc), dev));
    AgreeSelf(r);
  }

  lemma ImpliedPlain(op: OpType)
    requires Entry(op) && op.AccumulatorOrImplied?
    ensures !op.cb.BRANCH?
  {
  }

  lemma ImpliedProgram(op: OpType)
    requires op.AccumulatorOrImplied?
    ensures Program(op) == [DummyRead(op.cb)] && Ordinary(DummyRead(op.cb))
  {
  }

  lemma BehindByte(c: Core, op: OpType)
    requires OperandBytes(op) <= 1
    ensures Behind(c, op) == if OperandBytes(op) == 0 then Next(c.pc) else Next(Next(c.pc))
  {
    hide Plus, Next;
    Lengths(c.pc);
  }

  lemma AgreeSelf(c: Core)
    ensures Agree(c, c)
  {
  }

  lemma ImmediateRefines(c: Core, op: OpType, vec: word, cfg: Config, dev: Device) returns (r: Core)
    requires Ready(c) && op == Decode(LoadValue(c, c.pc, dev)) && Entry(op) && op.ImmediateAddressing?
    ensures Amounts(c, r, ImmediateInstruction(c, op, op.target, op.cb, dev), vec, cfg, dev)
  {
    hide Decode, Program, Leads, Exec, Ready, Called, Ordinary, PlainCallback, Next, Behind, WriteRegister, ReadTarget;
    var f := OpcodeFetched(c, op, dev);
    Begins(c, op, vec, cfg, dev);
    ImmediateProgram(op);
    var read := ReadPc(op.target, true, op.cb);
    DoImmediate(f, op.target, op.cb, vec, cfg, dev);
    BehindByte(c, op);
    r := ImmediateInstruction(c, op, op.target, op.cb, dev).core;
    var v := LoadValue(f, f.pc, dev);
    hide LoadValue;
    assert Load(f, f.pc, dev).(pc := Next(f.pc)) == Begun(c, op, Look(Look(c.log, c.pc, dev), Next(c.pc), dev));
    Then(Fetching(c), 1, f, [read], read, r, [], vec, cfg, dev);
    AgreeSelf(r);
  }

  lemma ImmediateProgram(op: OpType)
    requires Entry(op) && op.ImmediateAddressing?
    ensures Program(op) == [ReadPc(op.target, true, op.cb)] && Ordinary(ReadPc(op.target, true, op.cb))
    ensures ReadTarget(op.target) && !op.cb.BRANCH?
  {
  }

  lemma DoImmediate(c: Core, target: Target, cb: Callback, vec: word, cfg: Config, dev: Device)
    requires ReadTarget(target) && !cb.BRANCH?
    ensures Exec(c, ReadPc(target, true, cb), vec, cfg, dev)
         == Effect(Called(WriteRegister(Load(c, c.pc, dev).(pc := Next(c.pc)), target, LoadValue(c, c.pc, dev)), cb).core, [])
  {
    hide Exec, Called, Next, LoadValue, AddLow, WriteRegister;
    IsAbsolute(c, AddressSource.PC, Zero, target, Source.Absent, Source.Absent, Target.Nowhere, true, cb, vec, cfg, dev);
    SmallSums(c.pc, 0);
    var l, v := Load(c, c.pc, dev), LoadValue(c, c.pc, dev);
    RegisterPc(l, target, v, Next(c.pc));
    NoBranch(WriteRegister(l.(pc := Next(c.pc)), target, v), cb);
  }

  lemma RegisterPc(c: Core, target: Target, v: byte, pc: word)
    requires ReadTarget(target)
    ensures WriteRegister(c, target, v).pc == c.pc && !BusTarget(target)
    ensures WriteRegister(c, target, v).(pc := pc) == WriteRegister(c.(pc := pc), target, v)
  {
    hide TargetStatus;
    PcUntouched(c.pc, target, v);
    PcUntouched(pc, target, v);
    hide TargetPc;
  }

  // --- the stack

  /** Behind the opcode and the thrown-away read. */
  lemma DummyBegun(c: Core, op: OpType, rest: seq<MicroOp>, vec: word, cfg: Config, dev: Device)
    requires Ready(c) && op == Decode(LoadValue(c, c.pc, dev)) && Program(op) == [DummyRead(NoOp)] + rest
    ensures Leads(Fetching(c), 2, Work(Peeked(c, op, dev), rest), vec, cfg, dev) && Ready(Peeked(c, op, dev))
  {
    hide Decode, Program, Leads, Exec, Next;
    var f := OpcodeFetched(c, op, dev);
    Begins(c, op, vec, cfg, dev);
    DoDummy(f, NoOp, vec, cfg, dev);
    hide LoadValue;
    assert Load(f, f.pc, dev) == Peeked(c, op, dev);
    Then(Fetching(c), 1, f, Program(op), DummyRead(NoOp), Peeked(c, op, dev), rest, vec, cfg, dev);
  }

  lemma PushRefines(c: Core, op: OpType, vec: word, cfg: Config, dev: Device) returns (r: Core)
    requires Ready(c) && op == Decode(LoadValue(c, c.pc, dev)) && Entry(op) && op.PH?
    ensures Amounts(c, r, PushInstruction(c, op, op.src, dev), vec, cfg, dev)
  {
    hide Decode, Program, Leads, Exec, Ready, Ordinary, LoadValue, Pushed, Peeked;
    var push := StackPush(op.src, NoOp);
    PushProgram(op);
    DummyBegun(c, op, [push], vec, cfg, dev);
    var k := Peeked(c, op, dev);
    var v := if op.src.A? then c.a else StatusBrk(c.p);
    PeekedRegisters(c, op, dev);
    PushedValue(k, op);
    DoPush(k, op.src, v, vec, cfg, dev);
    r := Pushed(k, v);
    Then(Fetching(c), 2, k, [push], push, r, [], vec, cfg, dev);
    AgreeSelf(r);
  }

  lemma PeekedRegisters(c: Core, op: OpType, dev: Device)
    ensures var k := Peeked(c, op, dev); k.a == c.a && k.p == c.p && k.sp == c.sp && k.pc == Next(c.pc)
  {
    hide Next;
  }

  lemma PushedValue(k: Core, op: OpType)
    requires op.PH? && Entry(op)
    ensures ValueOf(k, op.src) == Some(if op.src.A? then k.a else StatusBrk(k.p))
  {
    hide StatusBrk;
  }

  lemma PushProgram(op: OpType)
    requires op.PH? && Entry(op)
    ensures Program(op) == [DummyRead(NoOp)] + [StackPush(op.src, NoOp)]
    ensures Ordinary(StackPush(op.src, NoOp))
  {
  }

  /** `c` with the stack pointer moved before the read. */
  lemma PeekPulls(k: Core, to: Target, dev: Device)
    ensures var s := k.(sp := Inc(k.sp));
      var a := StackAddress(s.sp);
      && WriteRegister(Load(s, a, dev), to, LoadValue(s, a, dev)) == WriteRegister(Pulled(k, dev), to, PulledByte(k, dev))
      && (Ready(k) ==> Ready(s))
  {
    hide Inc, StackAddress, WriteRegister;
  }

  lemma PullRefines(c: Core, op: OpType, vec: word, cfg: Config, dev: Device) returns (r: Core)
    requires Ready(c) && op == Decode(LoadValue(c, c.pc, dev)) && Entry(op) && op.PL?
    ensures Amounts(c, r, PullInstruction(c, op, op.target, dev), vec, cfg, dev)
  {
    hide Decode, Program, Leads, Exec, Ready, Ordinary, LoadValue, Peeked, Pulled, PulledByte, WriteRegister,
      StackAddress;
    var inc, peek := IncStackPointer(), StackPeek(op.target, NoOp);
    PullProgram(op);
    DummyBegun(c, op, [inc, peek], vec, cfg, dev);
    var k := Peeked(c, op, dev);
    DoIncSp(k, vec, cfg, dev);
    var s := k.(sp := Inc(k.sp));
    Then(Fetching(c), 2, k, [inc, peek], inc, s, [peek], vec, cfg, dev);
    DoPeek(s, op.target, vec, cfg, dev);
    PeekPulls(k, op.target, dev);
    r := PullInstruction(c, op, op.target, dev).core;
    Then(Fetching(c), 3, s, [peek], peek, r, [], vec, cfg, dev);
    AgreeSelf(r);
  }

  lemma PullProgram(op: OpType)
    requires op.PL? && Entry(op)
    ensures Program(op) == [DummyRead(NoOp)] + [IncStackPointer(), StackPeek(op.target, NoOp)]
    ensures Ordinary(IncStackPointer()) && Ordinary(StackPeek(op.target, NoOp)) && !BusTarget(op.target)
  {
  }

  // --- jumps

  /** Behind the opcode and the first operand byte. */
  lemma OperandBegun(c: Core, op: OpType, rest: seq<MicroOp>, vec: word, cfg: Config, dev: Device) returns (l: Core)
    requires Ready(c) && op == Decode(LoadValue(c, c.pc, dev)) && Program(op) == [FetchLo()] + rest
    ensures Leads(Fetching(c), 2, Work(l, rest), vec, cfg, dev) && Ready(l)
    ensures var k := Peeked(c, op, dev);
      l == k.(pc := Next(k.pc), lo := Answer(Look(c.log, c.pc, dev), k.pc, dev))
  {
    hide Decode, Program, Leads, Exec, Next;
    var f := OpcodeFetched(c, op, dev);
    Begins(c, op, vec, cfg, dev);
    DoFetch(f, vec, cfg, dev);
    l := LoFetched(f, dev);
    Then(Fetching(c), 1, f, Program(op), FetchLo(), l, rest, vec, cfg, dev);
  }

  lemma JumpProgram(op: OpType)
    requires op.JmpAbsolute? && Entry(op)
    ensures var jump := JumpHi(AddressSource.PC, Zero, Source.LO, NoOp);
      Program(op) == [FetchLo()] + [jump] && Ordinary(jump)
  {
  }

  lemma JumpRefines(c: Core, op: OpType, vec: word, cfg: Config, dev: Device) returns (r: Core)
    requires Ready(c) && op == Decode(LoadValue(c, c.pc, dev)) && Entry(op) && op.JmpAbsolute?
    ensures Amounts(c, r, JumpInstruction(c, op, dev), vec, cfg, dev)
  {
    hide Decode, Program, Leads, Exec, Ready, Ordinary, Pair, Next, AddLow;
    var jump := JumpHi(AddressSource.PC, Zero, Source.LO, NoOp);
    JumpProgram(op);
    var l := OperandBegun(c, op, [jump], vec, cfg, dev);
    DoJump(l, AddressSource.PC, l.pc, 0, Source.LO, l.lo, vec, cfg, dev);
    SmallSums(l.pc, 0);
    r := Load(l, l.pc, dev).(pc := Pair(LoadValue(l, l.pc, dev), l.lo));
    Then(Fetching(c), 2, l, [jump], jump, r, [], vec, cfg, dev);
  }

  lemma JumpIndirectProgram(op: OpType)
    requires op.JmpIndirect? && Entry(op)
    ensures var read, jump := ReadTo(Latch, Target.DataBus), JumpHi(Latch, One, Source.DataBus, NoOp);
      Program(op) == [FetchLo()] + [FetchHi(), read, jump] && Ordinary(FetchHi()) && Ordinary(read) && Ordinary(jump)
  {
  }

  lemma JumpIndirectRefines(c: Core, op: OpType, vec: word, cfg: Config, dev: Device) returns (r: Core)
    requires Ready(c) && op == Decode(LoadValue(c, c.pc, dev)) && Entry(op) && op.JmpIndirect?
    ensures Amounts(c, r, JumpIndirectInstruction(c, op, dev), vec, cfg, dev)
  {
    hide Decode, Program, Leads, Exec, Ordinary, Pair, Next, AddLow;
    var read, jump := ReadTo(Latch, Target.DataBus), JumpHi(Latch, One, Source.DataBus, NoOp);
    JumpIndirectProgram(op);
    var l := OperandBegun(c, op, [FetchHi(), read, jump], vec, cfg, dev);
    DoFetch(l, vec, cfg, dev);
    var m := HiFetched(l, dev);
    var p := Pair(m.hi, m.lo);
    Then(Fetching(c), 2, l, [FetchHi(), read, jump], FetchHi(), m, [read, jump], vec, cfg, dev);
    DoReadLatch(m, Latch, p, vec, cfg, dev);
    var n := Load(m, p, dev).(db := LoadValue(m, p, dev));
    Then(Fetching(c), 3, m, [read, jump], read, n, [jump], vec, cfg, dev);
    DoJump(n, Latch, p, 1, Source.DataBus, n.db, vec, cfg, dev);
    var a := AddLow(p, 1);
    r := Load(n, a, dev).(pc := Pair(LoadValue(n, a, dev), n.db));
    Then(Fetching(c), 4, n, [jump], jump, r, [], vec, cfg, dev);
  }

  lemma CallProgram(op: OpType)
    requires op.JSR? && Entry(op)
    ensures var hi, lo, jump := StackPush(Source.PCH, NoOp), StackPush(Source.PCL, NoOp), JumpHi(AddressSource.PC, Zero, Source.LO, NoOp);
      && Program(op) == [FetchLo()] + [DummyRead(NoOp), hi, lo, jump]
      && Ordinary(DummyRead(NoOp)) && Ordinary(hi) && Ordinary(lo) && Ordinary(jump)
  {
  }

  lemma PushReady(c: Core, v: byte)
    ensures Pushed(c, v) == c.(sp := Dec(c.sp), log := c.log + [Stored(StackAddress(c.sp), v)])
  {
    StackIsNotDma(c.sp);
    hide StackAddress, Dec;
  }

  lemma StackIsNotDma(sp: byte)
    ensures StackAddress(sp) != DMA_ADDRESS
  {
  }

  lemma PushesPc(m: Core, vec: word, cfg: Config, dev: Device)
    ensures var n := Pushed(m, High(m.pc));
      var q := Pushed(n, Low(m.pc));
      && Exec(m, StackPush(Source.PCH, NoOp), vec, cfg, dev) == Effect(n, [])
      && Exec(n, StackPush(Source.PCL, NoOp), vec, cfg, dev) == Effect(q, [])
      && q.pc == m.pc && q.lo == m.lo && (Ready(m) ==> Ready(n) && Ready(q))
  {
    hide Exec, Pushed, High, Low, StackAddress, Dec;
    var n := Pushed(m, High(m.pc));
    PushReady(m, High(m.pc));
    PushReady(n, Low(m.pc));
    DoPush(m, Source.PCH, High(m.pc), vec, cfg, dev);
    DoPush(n, Source.PCL, Low(m.pc), vec, cfg, dev);
  }

  lemma CallPushes(w: Work, l: Core, jump: MicroOp, vec: word, cfg: Config, dev: Device) returns (q: Core)
    requires Leads(w, 2, Work(l, [DummyRead(NoOp), StackPush(Source.PCH, NoOp), StackPush(Source.PCL, NoOp), jump]), vec, cfg, dev)
    requires Ready(l)
    ensures q == Pushed(Pushed(Load(l, l.pc, dev), High(l.pc)), Low(l.pc)) && Ready(q) && q.pc == l.pc && q.lo == l.lo
    ensures Leads(w, 5, Work(q, [jump]), vec, cfg, dev)
  {
    hide Leads, Exec, Ordinary, Pushed, High, Low, Ready, Load, LoadValue;
    var hi, lo := StackPush(Source.PCH, NoOp), StackPush(Source.PCL, NoOp);
    var m := Load(l, l.pc, dev);
    DoDummy(l, NoOp, vec, cfg, dev);
    LoadReady(l, l.pc, dev);
    LoadKeepsLatches(l, l.pc, dev);
    PushesPc(m, vec, cfg, dev);
    var n := Pushed(m, High(m.pc));
    q := Pushed(n, Low(m.pc));
    OrdinaryPushes();
    Then(w, 2, l, [DummyRead(NoOp), hi, lo, jump], DummyRead(NoOp), m, [hi, lo, jump], vec, cfg, dev);
    Then(w, 3, m, [hi, lo, jump], hi, n, [lo, jump], vec, cfg, dev);
    Then(w, 4, n, [lo, jump], lo, q, [jump], vec, cfg, dev);
  }

  lemma OrdinaryPushes()
    ensures Ordinary(DummyRead(NoOp)) && Ordinary(StackPush(Source.PCH, NoOp)) && Ordinary(StackPush(Source.PCL, NoOp))
  {
  }

  lemma CallRefines(c: Core, op: OpType, vec: word, cfg: Config, dev: Device) returns (r: Core)
    requires Ready(c) && op == Decode(LoadValue(c, c.pc, dev)) && Entry(op) && op.JSR?
    ensures Amounts(c, r, CallInstruction(c, op, dev), vec, cfg, dev)
  {
    hide Decode, Program, Leads, Exec, Ordinary, Pair, Next, AddLow, Pushed, High, Low, Peeked, Look, Answer, Agree,
      Ready, Entry, OperandBytes, Load, LoadValue;
    var hi, lo, jump := StackPush(Source.PCH, NoOp), StackPush(Source.PCL, NoOp), JumpHi(AddressSource.PC, Zero, Source.LO, NoOp);
    CallProgram(op);
    var l := OperandBegun(c, op, [DummyRead(NoOp), hi, lo, jump], vec, cfg, dev);
    var q := CallPushes(Fetching(c), l, jump, vec, cfg, dev);
    DoJump(q, AddressSource.PC, q.pc, 0, Source.LO, q.lo, vec, cfg, dev);
    SmallSums(q.pc, 0);
    CallAgrees(c, op, l, q, dev);
    r := Load(q, q.pc, dev).(pc := Pair(LoadValue(q, q.pc, dev), q.lo));
    Then(Fetching(c), 5, q, [jump], jump, r, [], vec, cfg, dev);
  }

  lemma LoadReady(c: Core, addr: word, dev: Device)
    ensures Ready(Load(c, addr, dev)) <==> Ready(c)
    ensures Load(c, addr, dev).pc == c.pc
  {
  }

  /** The latch of the low target byte is no part of what a call pushes. */
  lemma CallAgrees(c: Core, op: OpType, l: Core, q: Core, dev: Device)
    requires var k := Peeked(c, op, dev);
      l == k.(pc := Next(k.pc), lo := Answer(Look(c.log, c.pc, dev), k.pc, dev))
    requires q == Pushed(Pushed(Load(l, l.pc, dev), High(l.pc)), Low(l.pc))
    ensures Agree(Load(q, q.pc, dev).(pc := Pair(LoadValue(q, q.pc, dev), q.lo)), CallInstruction(c, op, dev).core)
  {
    hide Pair, Next, High, Low, Pushed, StackAddress, Dec;
    var k := Peeked(c, op, dev);
    var last := Next(k.pc);
    var m, n := Load(l, l.pc, dev), k.(log := Look(k.log, last, dev));
    PushReady(m, High(last));
    PushReady(n, High(last));
    PushReady(Pushed(m, High(last)), Low(last));
    PushReady(Pushed(n, High(last)), Low(last));
  }

  lemma ReturnProgram(op: OpType)
    requires op.RTS? && Entry(op)
    ensures var inc, pop, peek, step := IncStackPointer(), StackPop(Target.PCL, NoOp), StackPeek(Target.PCH, NoOp), Untouched(true, NoOp);
      && Program(op) == [DummyRead(NoOp)] + [inc, pop, peek, step]
      && Ordinary(inc) && Ordinary(pop) && Ordinary(peek) && Ordinary(step)
  {
  }

  /** The stack pointer is moved ahead of the next pull. */
  function Ahead(c: Core): Core { c.(sp := Inc(c.sp)) }
  function PulledLow(c: Core, dev: Device): Core { Pulled(c, dev).(pc := WithLow(c.pc, PulledByte(c, dev))) }
  function PulledHigh(c: Core, dev: Device): Core { Pulled(c, dev).(pc := WithHigh(c.pc, PulledByte(c, dev))) }
  function PulledStatus(c: Core, dev: Device): Core { Pulled(c, dev).(p := StatusPulled(PulledByte(c, dev))) }

  lemma PullEffects(c: Core, vec: word, cfg: Config, dev: Device)
    ensures Exec(c, IncStackPointer(), vec, cfg, dev) == Effect(Ahead(c), [])
    ensures Exec(Ahead(c), StackPop(Target.PCL, NoOp), vec, cfg, dev) == Effect(Ahead(PulledLow(c, dev)), [])
    ensures Exec(Ahead(c), StackPop(Target.P, NoOp), vec, cfg, dev) == Effect(Ahead(PulledStatus(c, dev)), [])
    ensures Exec(Ahead(c), StackPeek(Target.PCH, NoOp), vec, cfg, dev) == Effect(PulledHigh(c, dev), [])
  {
    hide Exec, WithHigh, WithLow, StackAddress, Inc, WriteRegister, StatusPulled;
    var s := Ahead(c);
    var a := StackAddress(s.sp);
    var v := PulledByte(c, dev);
    DoIncSp(c, vec, cfg, dev);
    DoPop(s, Target.PCL, vec, cfg, dev);
    DoPop(s, Target.P, vec, cfg, dev);
    DoPeek(s, Target.PCH, vec, cfg, dev);
    PcTargets(Load(s, a, dev).(sp := Inc(s.sp)), v);
    PcTargets(Load(s, a, dev), v);
  }

  lemma PullsReady(c: Core, dev: Device)
    requires Ready(c)
    ensures Ready(Ahead(c)) && Ready(PulledLow(c, dev)) && Ready(PulledHigh(c, dev)) && Ready(PulledStatus(c, dev))
  {
    hide Inc, WithLow, WithHigh, StatusPulled, Look;
  }

  lemma ReturnIs(c: Core, op: OpType, dev: Device)
    ensures var u := PulledHigh(PulledLow(Peeked(c, op, dev), dev), dev);
      u.(pc := Next(u.pc)) == ReturnInstruction(c, op, dev).core
  {
    hide Next, Inc, WithLow, WithHigh, StackAddress, Pair, Peeked;
    var k := Peeked(c, op, dev);
    PcHalves(k.pc, PulledByte(Pulled(k, dev), dev), PulledByte(k, dev));
  }

  lemma ReturnRefines(c: Core, op: OpType, vec: word, cfg: Config, dev: Device) returns (r: Core)
    requires Ready(c) && op == Decode(LoadValue(c, c.pc, dev)) && Entry(op) && op.RTS?
    ensures Amounts(c, r, ReturnInstruction(c, op, dev), vec, cfg, dev)
  {
    hide Decode, Program, Leads, Exec, Ordinary, Next, Ready, Ahead, PulledLow, PulledHigh, Peeked, LoadValue;
    var inc, pop, peek, step := IncStackPointer(), StackPop(Target.PCL, NoOp), StackPeek(Target.PCH, NoOp), Untouched(true, NoOp);
    ReturnProgram(op);
    DummyBegun(c, op, [inc, pop, peek, step], vec, cfg, dev);
    var k := Peeked(c, op, dev);
    var t := PulledLow(k, dev);
    var u := PulledHigh(t, dev);
    PullEffects(k, vec, cfg, dev);
    PullEffects(t, vec, cfg, dev);
    PullsReady(k, dev);
    PullsReady(t, dev);
    DoStep(u, vec, cfg, dev);
    r := u.(pc := Next(u.pc));
    Then(Fetching(c), 2, k, [inc, pop, peek, step], inc, Ahead(k), [pop, peek, step], vec, cfg, dev);
    Then(Fetching(c), 3, Ahead(k), [pop, peek, step], pop, Ahead(t), [peek, step], vec, cfg, dev);
    Then(Fetching(c), 4, Ahead(t), [peek, step], peek, u, [step], vec, cfg, dev);
    Then(Fetching(c), 5, u, [step], step, r, [], vec, cfg, dev);
    ReturnIs(c, op, dev);
    AgreeSelf(r);
  }

  lemma ReturnFromInterruptProgram(op: OpType)
    requires op.RTI? && Entry(op)
    ensures var inc, status, pop, peek := IncStackPointer(), StackPop(Target.P, NoOp), StackPop(Target.PCL, NoOp), StackPeek(Target.PCH, NoOp);
      && Program(op) == [DummyRead(NoOp)] + [inc, status, pop, peek]
      && Ordinary(inc) && Ordinary(status) && Ordinary(pop) && Ordinary(peek)
  {
  }

  lemma ReturnFromInterruptIs(c: Core, op: OpType, dev: Device)
    ensures PulledHigh(PulledLow(PulledStatus(Peeked(c, op, dev), dev), dev), dev) == ReturnFromInterrupt(c, op, dev).core
  {
    hide Next, Inc, WithLow, WithHigh, StackAddress, Pair, Peeked, StatusPulled;
    var k := Peeked(c, op, dev);
    var d := Pulled(k, dev);
    var e := Pulled(d, dev);
    PcHalves(k.pc, PulledByte(e, dev), PulledByte(d, dev));
  }

  lemma ReturnFromInterruptRefines(c: Core, op: OpType, vec: word, cfg: Config, dev: Device) returns (r: Core)
    requires Ready(c) && op == Decode(LoadValue(c, c.pc, dev)) && Entry(op) && op.RTI?
    ensures Amounts(c, r, ReturnFromInterrupt(c, op, dev), vec, cfg, dev)
  {
    hide Decode, Program, Leads, Exec, Ordinary, Next, Ready, Ahead, PulledLow, PulledHigh, PulledStatus, Peeked,
      LoadValue;
    var inc, status, pop, peek := IncStackPointer(), StackPop(Target.P, NoOp), StackPop(Target.PCL, NoOp), StackPeek(Target.PCH, NoOp);
    ReturnFromInterruptProgram(op);
    DummyBegun(c, op, [inc, status, pop, peek], vec, cfg, dev);
    var k := Peeked(c, op, dev);
    var t := PulledStatus(k, dev);
    var u := PulledLow(t, dev);
    r := PulledHigh(u, dev);
    PullEffects(k, vec, cfg, dev);
    PullEffects(t, vec, cfg, dev);
    PullEffects(u, vec, cfg, dev);
    PullsReady(k, dev);
    PullsReady(t, dev);
    PullsReady(u, dev);
    Then(Fetching(c), 2, k, [inc, status, pop, peek], inc, Ahead(k), [status, pop, peek], vec, cfg, dev);
    Then(Fetching(c), 3, Ahead(k), [status, pop, peek], status, Ahead(t), [pop, peek], vec, cfg, dev);
    Then(Fetching(c), 4, Ahead(t), [pop, peek], pop, Ahead(u), [peek], vec, cfg, dev);
    Then(Fetching(c), 5, Ahead(u), [peek], peek, r, [], vec, cfg, dev);
    ReturnFromInterruptIs(c, op, dev);
    AgreeSelf(r);
  }

  // --- branches

  lemma BranchProgram(op: OpType)
    requires op.Relative? && Entry(op)
    ensures op.cb.BRANCH? && Program(op) == [FetchOperandLo(op.cb)]
    ensures Ordinary(FetchOperandLo(op.cb))
  {
  }

  lemma DoBranchFetch(c: Core, condition: Condition, vec: word, cfg: Config, dev: Device)
    ensures Exec(c, FetchOperandLo(BRANCH(condition)), vec, cfg, dev)
         == Effect(LoFetched(c, dev), if Holds(c.p, condition) then [BranchIncrement(Source.LO)] else [])
  {
    hide Exec, Holds, Next, LoadValue;
    IsFetch(c, BRANCH(condition), vec, cfg, dev);
  }

  lemma DoBranch(c: Core, vec: word, cfg: Config, dev: Device)
    ensures var t := BranchTarget(c.pc, c.lo);
      Exec(c, BranchIncrement(Source.LO), vec, cfg, dev)
         == Effect(Load(c, c.pc, dev).(pc := WithLow(c.pc, Low(t))), if High(c.pc) != High(t) then [FixHiBranch(t)] else [])
  {
    hide Exec, BranchTarget, WithLow, High, Low;
    IsBranch(c, Source.LO, 0, vec, cfg, dev);
  }

  lemma SamePage(w: word, t: word)
    requires High(w) == High(t)
    ensures WithLow(w, Low(t)) == t
  {
  }

  lemma BranchRefines(c: Core, op: OpType, vec: word, cfg: Config, dev: Device) returns (r: Core)
    requires Ready(c) && op == Decode(LoadValue(c, c.pc, dev)) && Entry(op) && op.Relative? && op.cb.BRANCH?
    ensures Amounts(c, r, BranchInstruction(c, op, op.cb.condition, dev), vec, cfg, dev)
  {
    hide Decode, Program, Leads, Exec, Ordinary, Next, WithLow, High, Low, BranchTarget, Holds;
    var f := OpcodeFetched(c, op, dev);
    BranchProgram(op);
    Begins(c, op, vec, cfg, dev);
    var l := LoFetched(f, dev);
    DoBranchFetch(f, op.cb.condition, vec, cfg, dev);
    var fetch, inc := FetchOperandLo(op.cb), BranchIncrement(Source.LO);
    if Holds(c.p, op.cb.condition) {
      LeadsPush(f, fetch, l, [inc], vec, cfg, dev);
      LeadsOn(Fetching(c), 1, Work(f, [fetch]), 1, Work(l, [inc]), vec, cfg, dev);
      r := Taken(c, l, op, vec, cfg, dev);
    } else {
      r := l;
      LeadsPush(f, fetch, l, [], vec, cfg, dev);
      LeadsOn(Fetching(c), 1, Work(f, [fetch]), 1, Work(l, []), vec, cfg, dev);
    }
  }

  lemma Taken(c: Core, l: Core, op: OpType, vec: word, cfg: Config, dev: Device) returns (r: Core)
    requires Leads(Fetching(c), 2, Work(l, [BranchIncrement(Source.LO)]), vec, cfg, dev) && Ready(l)
    requires l == LoFetched(OpcodeFetched(c, op, dev), dev) && op.Relative? && op.cb.BRANCH? && Holds(c.p, op.cb.condition)
    ensures Amounts(c, r, BranchInstruction(c, op, op.cb.condition, dev), vec, cfg, dev)
  {
    hide Leads, Exec, Ordinary, Next, WithLow, High, Low, BranchTarget, Holds;
    var inc := BranchIncrement(Source.LO);
    DoBranch(l, vec, cfg, dev);
    OrdinaryBranch(0);
    var t := BranchTarget(l.pc, l.lo);
    var m := Load(l, l.pc, dev).(pc := WithLow(l.pc, Low(t)));
    if High(l.pc) == High(t) {
      SamePage(l.pc, t);
      r := m;
      Then(Fetching(c), 2, l, [inc], inc, r, [], vec, cfg, dev);
    } else {
      var fix := FixHiBranch(t);
      LeadsPush(l, inc, m, [fix], vec, cfg, dev);
      LeadsOn(Fetching(c), 2, Work(l, [inc]), 1, Work(m, [fix]), vec, cfg, dev);
      IsBranch(m, Source.LO, t, vec, cfg, dev);
      OrdinaryBranch(t);
      r := Load(m, m.pc, dev).(pc := t);
      Then(Fetching(c), 3, m, [fix], fix, r, [], vec, cfg, dev);
    }
  }

  lemma OrdinaryBranch(t: word)
    ensures Ordinary(BranchIncrement(Source.LO)) && Ordinary(FixHiBranch(t))
  {
  }
}
