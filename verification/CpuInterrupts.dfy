/** Interrupts, BRK and calls return to where they came from. */
module CpuInterrupts {
  import opened Bits
  import opened CpuTypes
  import opened CpuAlu
  import opened CpuCallbacks
  import opened CpuExec
  import opened CpuSafety
  import opened CpuFlow
  import opened CpuControl
  import opened InstructionSet
  import opened Opcodes

  // --- the micro-operations of an interrupt sequence

  lemma CalledSei(c: Core)
    ensures Called(c, Callback.SEI) == Effect(c.(p := WithFlag(c.p, IRQ_DISABLE, true)), [])
  {
    hide Alu, WithFlag;
    FlagIs(c, Callback.SEI);
  }

  function VectorLow(c: Core, vector: word, dev: Device): Core {
    Load(c, vector, dev).(pc := WithLow(c.pc, LoadValue(c, vector, dev)), p := WithFlag(c.p, IRQ_DISABLE, true))
  }

  function VectorHigh(c: Core, vector: word, dev: Device): Core {
    Load(c, AddLow(vector, 1), dev).(pc := WithHigh(c.pc, LoadValue(c, AddLow(vector, 1), dev)))
  }

  function ReadVectorLow(from: AddressSource): MicroOp { MicroOp.Read(from, Target.PCL, Callback.SEI) }
  function ReadVectorHigh(from: AddressSource, cb: Callback): MicroOp {
    ReadAbsolute(from, One, Target.PCH, Source.Absent, Source.Absent, Target.Nowhere, false, cb)
  }

  lemma DoVectorLow(c: Core, from: AddressSource, vector: word, vec: word, cfg: Config, dev: Device)
    requires AddressOf(c, from, vec) == Some(vector)
    ensures Exec(c, ReadVectorLow(from), vec, cfg, dev) == Effect(VectorLow(c, vector, dev), [])
  {
    hide Exec, Called, AddressOf, Load, LoadValue, WriteTarget, WithLow, WithHigh, WithFlag;
    IsRead(c, from, Target.PCL, Callback.SEI, vec, cfg, dev);
    var l := Load(c, vector, dev);
    var v := LoadValue(c, vector, dev);
    PcTargets(l, v);
    LoadKeepsRegisters(c, vector, dev);
    CalledSei(l.(pc := WithLow(c.pc, v)));
  }

  lemma LoadKeepsRegisters(c: Core, a: word, dev: Device)
    ensures var l := Load(c, a, dev); l.pc == c.pc && l.p == c.p && l.sp == c.sp
  {
  }

  lemma DoVectorHigh(c: Core, from: AddressSource, vector: word, cb: Callback, vec: word, cfg: Config, dev: Device)
    requires AddressOf(c, from, vec) == Some(vector) && (cb.NoOp? || cb.ExitIrq?)
    ensures Exec(c, ReadVectorHigh(from, cb), vec, cfg, dev) == Effect(VectorHigh(c, vector, dev), [])
  {
    hide Exec, Called, AddressOf, Load, LoadValue, WriteTarget, WithLow, WithHigh, AddLow;
    IsAbsolute(c, from, One, Target.PCH, Source.Absent, Source.Absent, Target.Nowhere, false, cb, vec, cfg, dev);
    var a := AddLow(vector, 1);
    var l := Load(c, a, dev);
    var v := LoadValue(c, a, dev);
    PcTargets(l, v);
    LoadKeepsRegisters(c, a, dev);
    Untouching(l.(pc := WithHigh(c.pc, v)));
  }

  lemma IdleAccess(c: Core, incPc: bool, cb: Callback, vec: word, dev: Device)
    ensures ExecAbsolute(c, AddressSource.PC, Zero, Target.Nowhere, Source.Absent, Source.Absent, Target.Nowhere, incPc, cb, vec, dev)
         == Called(if incPc then Load(c, c.pc, dev).(pc := Next(c.pc)) else Load(c, c.pc, dev), cb)
  {
    hide Called, Load, LoadValue, WriteTarget, AddLow, Next;
    SmallSums(c.pc, 0);
    LoadKeepsRegisters(c, c.pc, dev);
    PlainTargets(Load(c, c.pc, dev), LoadValue(c, c.pc, dev));
  }

  lemma DoIdleRead(c: Core, incPc: bool, cb: Callback, vec: word, cfg: Config, dev: Device)
    requires cb.NoOp? || cb == COPY(AddressSource.Address(0xFFFE), IrqVecCandidate)
    ensures Exec(c, ReadPc(Target.Nowhere, incPc, cb), vec, cfg, dev)
         == Effect(if incPc then Load(c, c.pc, dev).(pc := Next(c.pc)) else Load(c, c.pc, dev), [])
  {
    hide Exec, ExecAbsolute, Called, Load, Next;
    IsAbsolute(c, AddressSource.PC, Zero, Target.Nowhere, Source.Absent, Source.Absent, Target.Nowhere, incPc, cb, vec, cfg, dev);
    IdleAccess(c, incPc, cb, vec, dev);
    Untouching(if incPc then Load(c, c.pc, dev).(pc := Next(c.pc)) else Load(c, c.pc, dev));
  }

  // --- pushing the return address and the status

  function ReturnPushed(c: Core, status: byte): Core {
    InstructionSet.Pushed(InstructionSet.Pushed(InstructionSet.Pushed(c, High(c.pc)), Low(c.pc)), status)
  }

  lemma ReturnPushedIs(c: Core, status: byte)
    ensures var s1, s2 := Dec(c.sp), Dec(Dec(c.sp));
      ReturnPushed(c, status) == c.(sp := Dec(s2),
        log := c.log + [Stored(StackAddress(c.sp), High(c.pc))] + [Stored(StackAddress(s1), Low(c.pc))] + [Stored(StackAddress(s2), status)])
  {
    hide High, Low, StackAddress, Dec, InstructionSet.Pushed;
    var q1 := InstructionSet.Pushed(c, High(c.pc));
    var q2 := InstructionSet.Pushed(q1, Low(c.pc));
    PushReady(c, High(c.pc));
    PushReady(q1, Low(c.pc));
    PushReady(q2, status);
  }

  lemma PushesReturn(w: Work, k: nat, c: Core, src: Source, status: byte, todo: seq<MicroOp>, rest: seq<MicroOp>,
                     vec: word, cfg: Config, dev: Device)
    requires Leads(w, k, Work(c, todo), vec, cfg, dev) && Ready(c)
    requires todo == [StackPush(Source.PCH, NoOp), StackPush(Source.PCL, NoOp), StackPush(src, LockIrqVec)] + rest
    requires (src.PIrq? && status == StatusIrq(c.p)) || (src.PBrk? && status == StatusBrk(c.p))
    ensures Leads(w, k + 3, Work(ReturnPushed(c, status), rest), vec, cfg, dev) && Ready(ReturnPushed(c, status))
  {
    hide Leads, Exec, Ordinary, InstructionSet.Pushed, Ready, High, Low, StatusIrq, StatusBrk;
    var hi, lo, st := StackPush(Source.PCH, NoOp), StackPush(Source.PCL, NoOp), StackPush(src, LockIrqVec);
    PushesPc(c, vec, cfg, dev);
    var n := InstructionSet.Pushed(c, High(c.pc));
    var q := InstructionSet.Pushed(n, Low(c.pc));
    StatusValue(c, q, src, status);
    DoPush(q, src, status, vec, cfg, dev);
    OrdinaryPushes();
    ReturnReady(c, status);
    assert todo == [hi] + ([lo, st] + rest) && [lo, st] + rest == [lo] + ([st] + rest);
    Then(w, k, c, todo, hi, n, [lo, st] + rest, vec, cfg, dev);
    Then(w, k + 1, n, [lo, st] + rest, lo, q, [st] + rest, vec, cfg, dev);
    OrdinaryStatus(src);
    Then(w, k + 2, q, [st] + rest, st, InstructionSet.Pushed(q, status), rest, vec, cfg, dev);
  }

  lemma OrdinaryStatus(src: Source)
    ensures Ordinary(StackPush(src, LockIrqVec))
  {
  }

  lemma ReturnReady(c: Core, status: byte)
    ensures Ready(ReturnPushed(c, status)) <==> Ready(c)
  {
    hide ReturnPushed, High, Low, StackAddress, Dec;
    ReturnPushedIs(c, status);
  }

  lemma StatusValue(c: Core, q: Core, src: Source, status: byte)
    requires q == InstructionSet.Pushed(InstructionSet.Pushed(c, High(c.pc)), Low(c.pc))
    requires (src.PIrq? && status == StatusIrq(c.p)) || (src.PBrk? && status == StatusBrk(c.p))
    ensures ValueOf(q, src) == Some(status)
  {
    hide InstructionSet.Pushed, High, Low, StatusIrq, StatusBrk, StackAddress, Dec;
    PushReady(c, High(c.pc));
    PushReady(InstructionSet.Pushed(c, High(c.pc)), Low(c.pc));
  }

  lemma VectoredIs(c: Core, status: byte, vector: word, dev: Device)
    ensures VectorHigh(VectorLow(ReturnPushed(c, status), vector, dev), vector, dev) == Vectored(c, status, vector, dev)
  {
    hide WithLow, WithHigh, Pair, AddLow, WithFlag, InstructionSet.Pushed, High, Low;
    var s := ReturnPushed(c, status);
    PcHalves(s.pc, Answer(Look(s.log, vector, dev), AddLow(vector, 1), dev), Answer(s.log, vector, dev));
  }

  lemma InterruptTail(vector: word)
    ensures var from := AddressSource.Address(vector);
      var idle := ReadPc(Target.Nowhere, false, NoOp);
      && InterruptProgram(vector) == [idle, idle] + ([StackPush(Source.PCH, NoOp), StackPush(Source.PCL, NoOp), StackPush(Source.PIrq, LockIrqVec)]
                                       + [ReadVectorLow(from), ReadVectorHigh(from, ExitIrq)])
      && Ordinary(idle) && Ordinary(ReadVectorLow(from)) && Ordinary(ReadVectorHigh(from, ExitIrq))
  {
  }

  lemma VectorReady(c: Core, vector: word, dev: Device)
    requires Ready(c)
    ensures Ready(VectorLow(c, vector, dev)) && Ready(Load(c, c.pc, dev))
  {
    hide WithFlag, WithLow;
  }

  /** The seven micro-operations of an interrupt amount to its entry. */
  lemma InterruptRefines(c: Core, vector: word, vec: word, cfg: Config, dev: Device)
    requires Ready(c)
    ensures Leads(Work(c, InterruptProgram(vector)), 7, Work(InterruptEntry(c, vector, dev).core, []), vec, cfg, dev)
  {
    hide Leads, Exec, Ordinary, Ready, InterruptProgram, ReturnPushed, Vectored, VectorLow, VectorHigh, StatusIrq,
      ReadPc, ReadVectorLow, ReadVectorHigh;
    InterruptTail(vector);
    var from := AddressSource.Address(vector);
    var idle := ReadPc(Target.Nowhere, false, NoOp);
    var low, high := ReadVectorLow(from), ReadVectorHigh(from, ExitIrq);
    var rest := [StackPush(Source.PCH, NoOp), StackPush(Source.PCL, NoOp), StackPush(Source.PIrq, LockIrqVec)] + [low, high];
    var w := Work(c, InterruptProgram(vector));
    var d := Load(c, c.pc, dev);
    var e := Load(d, d.pc, dev);
    VectorReady(c, vector, dev);
    VectorReady(d, vector, dev);
    DoIdleRead(c, false, NoOp, vec, cfg, dev);
    DoIdleRead(d, false, NoOp, vec, cfg, dev);
    assert InterruptProgram(vector) == [idle] + ([idle] + rest);
    LeadsOne(c, idle, d, w.todo, [idle] + rest, vec, cfg, dev);
    Then(w, 1, d, [idle] + rest, idle, e, rest, vec, cfg, dev);
    var status := StatusIrq(c.p);
    PushesReturn(w, 2, e, Source.PIrq, status, rest, [low, high], vec, cfg, dev);
    var s := ReturnPushed(e, status);
    DoVectorLow(s, from, vector, vec, cfg, dev);
    var t := VectorLow(s, vector, dev);
    VectorReady(s, vector, dev);
    DoVectorHigh(t, from, vector, ExitIrq, vec, cfg, dev);
    Then(w, 5, s, [low, high], low, t, [high], vec, cfg, dev);
    Then(w, 6, t, [high], high, VectorHigh(t, vector, dev), [], vec, cfg, dev);
    VectoredIs(e, status, vector, dev);
  }

  // --- what the stack remembers

  /** The byte last stored at `a`. */
  function LastStored(log: seq<Access>, a: word): Option<byte> {
    if log == [] then None
    else
      var last := log[|log| - 1];
      if last.Stored? && last.addr == a then Some(last.data) else LastStored(log[..|log| - 1], a)
  }

  /** The stack page behaves like memory: a read answers with what was last stored there. */
  ghost predicate StackRam(dev: Device) {
    forall log: seq<Access>, sp: byte {:trigger LastStored(log, StackAddress(sp))} ::
      LastStored(log, StackAddress(sp)).Some? ==> dev(log, StackAddress(sp)) == LastStored(log, StackAddress(sp)).value
  }

  lemma StoredLast(log: seq<Access>, a: word, b: word, v: byte)
    ensures LastStored(log + [Stored(b, v)], a) == if a == b then Some(v) else LastStored(log, a)
    ensures LastStored(log + [Loaded(b, v)], a) == LastStored(log, a)
  {
    assert (log + [Stored(b, v)])[..|log|] == log && (log + [Loaded(b, v)])[..|log|] == log;
  }

  lemma LookKeeps(log: seq<Access>, a: word, b: word, dev: Device)
    ensures LastStored(Look(log, b, dev), a) == LastStored(log, a)
  {
    StoredLast(log, a, b, dev(log, b));
  }

  lemma Recalled(log: seq<Access>, sp: byte, v: byte, dev: Device)
    requires StackRam(dev) && LastStored(log, StackAddress(sp)) == Some(v)
    ensures Answer(log, StackAddress(sp), dev) == v
  {
    hide StackAddress;
  }

  lemma StackSlots(sp: byte)
    ensures var s1, s2 := Dec(sp), Dec(Dec(sp));
      && StackAddress(sp) != StackAddress(s1) && StackAddress(s1) != StackAddress(s2) && StackAddress(sp) != StackAddress(s2)
      && Inc(s1) == sp && Inc(s2) == s1 && Inc(Dec(s2)) == s2
  {
  }

  /** The return address is on the stack below `sp`. */
  predicate Holding(log: seq<Access>, sp: byte, pc: word) {
    LastStored(log, StackAddress(sp)) == Some(High(pc)) && LastStored(log, StackAddress(Dec(sp))) == Some(Low(pc))
  }

  predicate HoldingStatus(log: seq<Access>, sp: byte, status: byte) {
    LastStored(log, StackAddress(Dec(Dec(sp)))) == Some(status)
  }

  lemma ReturnHeld(c: Core, status: byte)
    ensures var s := ReturnPushed(c, status);
      Holding(s.log, c.sp, c.pc) && HoldingStatus(s.log, c.sp, status) && s.sp == Dec(Dec(Dec(c.sp)))
  {
    hide StackAddress, High, Low, Dec, LastStored, ReturnPushed;
    ReturnPushedIs(c, status);
    StackSlots(c.sp);
    var a, a1, a2 := StackAddress(c.sp), StackAddress(Dec(c.sp)), StackAddress(Dec(Dec(c.sp)));
    var l1 := c.log + [Stored(a, High(c.pc))];
    var l2 := l1 + [Stored(a1, Low(c.pc))];
    StoredLast(c.log, a, a, High(c.pc));
    StoredLast(l1, a, a1, Low(c.pc));
    StoredLast(l2, a, a2, status);
    StoredLast(l1, a1, a1, Low(c.pc));
    StoredLast(l2, a1, a2, status);
    StoredLast(l2, a2, a2, status);
  }

  /** The jump through the vector only reads. */
  lemma VectoredHeld(c: Core, status: byte, vector: word, dev: Device)
    ensures var s := Vectored(c, status, vector, dev);
      Holding(s.log, c.sp, c.pc) && HoldingStatus(s.log, c.sp, status) && s.sp == Dec(Dec(Dec(c.sp)))
  {
    hide StackAddress, High, Low, Dec, LastStored, InstructionSet.Pushed, Look, AddLow, Pair, WithFlag, Answer;
    var s := ReturnPushed(c, status);
    ReturnHeld(c, status);
    HeldLooks(s.log, vector, AddLow(vector, 1), c.sp, dev);
  }

  lemma HeldLooks(log: seq<Access>, a: word, b: word, sp: byte, dev: Device)
    ensures forall pc :: Holding(log, sp, pc) ==> Holding(Look(Look(log, a, dev), b, dev), sp, pc)
    ensures forall status :: HoldingStatus(log, sp, status) ==> HoldingStatus(Look(Look(log, a, dev), b, dev), sp, status)
  {
    hide StackAddress, High, Low, Dec, LastStored, Look;
    var l := Look(log, a, dev);
    var a0, a1, a2 := StackAddress(sp), StackAddress(Dec(sp)), StackAddress(Dec(Dec(sp)));
    LookKeeps(log, a0, a, dev);
    LookKeeps(log, a1, a, dev);
    LookKeeps(log, a2, a, dev);
    LookKeeps(l, a0, b, dev);
    LookKeeps(l, a1, b, dev);
    LookKeeps(l, a2, b, dev);
  }

  lemma HalvesPair(pc: word)
    ensures Pair(High(pc), Low(pc)) == pc
  {
  }

  /** RTI takes back what lies on the stack. */
  lemma TakesBackInterrupt(d: Core, op: OpType, sp: byte, pc: word, status: byte, dev: Device)
    requires StackRam(dev) && d.sp == Dec(Dec(Dec(sp))) && Holding(d.log, sp, pc) && HoldingStatus(d.log, sp, status)
    ensures var r := ReturnFromInterrupt(d, op, dev).core;
      r.pc == pc && r.sp == sp && r.p == StatusPulled(status)
  {
    hide StackAddress, High, Low, Dec, LastStored, StackRam, Pair, StatusPulled, Inc, Next, Answer, Look;
    var k := Peeked(d, op, dev);
    HeldLooks(d.log, d.pc, Next(d.pc), sp, dev);
    StackSlots(sp);
    var s1, s2 := Dec(sp), Dec(Dec(sp));
    var a0, a1, a2 := StackAddress(sp), StackAddress(s1), StackAddress(s2);
    Recalled(k.log, s2, status, dev);
    LookKeeps(k.log, a1, a2, dev);
    LookKeeps(k.log, a0, a2, dev);
    var l := Look(k.log, a2, dev);
    Recalled(l, s1, Low(pc), dev);
    LookKeeps(l, a0, a1, dev);
    Recalled(Look(l, a1, dev), sp, High(pc), dev);
    HalvesPair(pc);
  }

  /** RTS takes back the address that lies on the stack, and goes on behind it. */
  lemma TakesBackCall(d: Core, op: OpType, sp: byte, pc: word, dev: Device)
    requires StackRam(dev) && d.sp == Dec(Dec(sp)) && Holding(d.log, sp, pc)
    ensures var r := ReturnInstruction(d, op, dev).core;
      r.pc == Next(pc) && r.sp == sp
  {
    hide StackAddress, High, Low, Dec, LastStored, StackRam, Pair, Inc, Next, Answer, Look;
    var k := Peeked(d, op, dev);
    HeldLooks(d.log, d.pc, Next(d.pc), sp, dev);
    StackSlots(sp);
    var a0, a1 := StackAddress(sp), StackAddress(Dec(sp));
    Recalled(k.log, Dec(sp), Low(pc), dev);
    LookKeeps(k.log, a0, a1, dev);
    Recalled(Look(k.log, a1, dev), sp, High(pc), dev);
    HalvesPair(pc);
  }

  lemma StatusBack(p: byte)
    requires StackBitsClear(p)
    ensures StatusPulled(StatusIrq(p)) == p && StatusPulled(StatusBrk(p)) == p
  {
  }
}
