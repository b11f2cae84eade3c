/** The last micro-operations of memory instructions do to the registers and the bus what the instruction does. */
module CpuAccess {
  import opened Bits
  import opened CpuTypes
  import opened CpuAlu
  import opened CpuCallbacks
  import opened CpuExec
  import opened CpuFlow
  import opened CpuAddressing
  import opened InstructionSet
  import opened Opcodes

  // --- callbacks see only the registers and the data latch

  /** Everything a plain callback looks at is the same. */
  predicate SeesSame(c: Core, d: Core, cb: Callback) {
    && c.a == d.a && c.x == d.x && c.y == d.y && c.sp == d.sp && c.p == d.p && c.db == d.db && c.op == d.op
    && CarryOf(c) == CarryOf(d) && (IsShift(cb) ==> ShiftOf(c, cb) == ShiftOf(d, cb))
  }

  lemma AgreeingSeeSame(c: Core, d: Core, cb: Callback)
    requires Agree(c, d) && c.db == d.db
    ensures SeesSame(c, d, cb)
  {
    hide ShiftLeft, ShiftRight, RotateLeft, RotateRight, Flag;
    if IsShift(cb) {
      assert ShiftOperand(c) == ShiftOperand(d);
    }
  }

  lemma SameAluA(c: Core, d: Core, cb: Callback)
    requires c.a == d.a && c.x == d.x && c.y == d.y && c.sp == d.sp && c.p == d.p && c.db == d.db && c.op == d.op
    requires CarryOf(c) == CarryOf(d) && (IsShift(cb) ==> ShiftOf(c, cb) == ShiftOf(d, cb))
    ensures AluA(c, cb) == AluA(d, cb)
  {
    hide ShiftLeft, ShiftRight, RotateLeft, RotateRight, SumByte, And, Or, Xor, Complement, Inc, ShiftOf, CarryOf,
      ShiftOperand;
  }

  lemma SameAluDb(c: Core, d: Core, cb: Callback)
    requires c.a == d.a && c.x == d.x && c.y == d.y && c.sp == d.sp && c.p == d.p && c.db == d.db && c.op == d.op
    requires CarryOf(c) == CarryOf(d) && (IsShift(cb) ==> ShiftOf(c, cb) == ShiftOf(d, cb))
    requires PlainCallback(cb)
    ensures AluDb(c, cb) == AluDb(d, cb)
  {
    hide ShiftLeft, ShiftRight, RotateLeft, RotateRight, And, Inc, Dec, HighAnd, ShiftOf, CarryOf, ShiftOperand;
  }

  lemma SameAluX(c: Core, d: Core, cb: Callback)
    requires c.a == d.a && c.x == d.x && c.y == d.y && c.sp == d.sp && c.p == d.p && c.db == d.db && c.op == d.op
    requires CarryOf(c) == CarryOf(d) && (IsShift(cb) ==> ShiftOf(c, cb) == ShiftOf(d, cb))
    requires AluA(c, cb) == AluA(d, cb)
    ensures AluX(c, cb) == AluX(d, cb)
  {
    hide AluA, Dec, Inc, Minus, And, CarryOf, ShiftOf;
  }

  lemma SameAluY(c: Core, d: Core, cb: Callback)
    requires c.a == d.a && c.x == d.x && c.y == d.y && c.sp == d.sp && c.p == d.p && c.db == d.db && c.op == d.op
    requires CarryOf(c) == CarryOf(d) && (IsShift(cb) ==> ShiftOf(c, cb) == ShiftOf(d, cb))
    requires AluA(c, cb) == AluA(d, cb)
    ensures AluY(c, cb) == AluY(d, cb) && AluSp(c, cb) == AluSp(d, cb)
  {
    hide AluA, Dec, Inc, CarryOf, ShiftOf;
  }

  lemma SameCombined(c: Core, d: Core, cb: Callback)
    requires c.a == d.a && c.x == d.x && c.y == d.y && c.sp == d.sp && c.p == d.p && c.db == d.db && c.op == d.op
    requires CarryOf(c) == CarryOf(d) && (IsShift(cb) ==> ShiftOf(c, cb) == ShiftOf(d, cb))
    requires AluA(c, cb) == AluA(d, cb)
    ensures CombinedP(c, cb) == CombinedP(d, cb)
  {
    hide AluA, WithNZ, ShiftFlags, ShiftLeft, ShiftRight, RotateLeft, RotateRight, SumFlags, And, WithFlag, Flag,
      CarryOf, ShiftOf;
  }

  lemma SameArithmetic(c: Core, d: Core, cb: Callback)
    requires c.a == d.a && c.x == d.x && c.y == d.y && c.sp == d.sp && c.p == d.p && c.db == d.db && c.op == d.op
    requires CarryOf(c) == CarryOf(d) && (IsShift(cb) ==> ShiftOf(c, cb) == ShiftOf(d, cb))
    requires AluA(c, cb) == AluA(d, cb) && AluDb(c, cb) == AluDb(d, cb)
    ensures ArithmeticP(c, cb) == ArithmeticP(d, cb)
  {
    hide AluA, AluDb, WithNZ, SumFlags, DifferenceFlags, Compared, BitFlags, ArrFlags, And, Complement, CarryOf,
      ShiftOf;
  }

  lemma SameAluP(c: Core, d: Core, cb: Callback)
    requires SeesSame(c, d, cb) && PlainCallback(cb)
    ensures AluP(c, cb) == AluP(d, cb)
  {
    hide AluA, AluX, AluY, AluDb, WithNZ, FlagP, ShiftFlags, ShiftOf, CombinedP, ArithmeticP, PlainCallback, CarryOf;
    SameAluA(c, d, cb);
    SameAluX(c, d, cb);
    SameAluY(c, d, cb);
    SameAluDb(c, d, cb);
    SameCombined(c, d, cb);
    SameArithmetic(c, d, cb);
  }

  lemma PartsAgree(c: Core, d: Core, cb: Callback)
    requires Agree(c, d) && c.db == d.db && PlainCallback(cb)
    ensures AluA(c, cb) == AluA(d, cb) && AluX(c, cb) == AluX(d, cb) && AluY(c, cb) == AluY(d, cb)
    ensures AluSp(c, cb) == AluSp(d, cb) && AluP(c, cb) == AluP(d, cb) && AluDb(c, cb) == AluDb(d, cb)
  {
    hide AluA, AluX, AluY, AluSp, AluP, AluDb, CarryOf, ShiftOf, IsShift, PlainCallback;
    AgreeingSeeSame(c, d, cb);
    SameAluA(c, d, cb);
    SameAluX(c, d, cb);
    SameAluY(c, d, cb);
    SameAluP(c, d, cb);
    SameAluDb(c, d, cb);
  }

  lemma AluAgrees(c: Core, d: Core, cb: Callback)
    requires Agree(c, d) && c.db == d.db && PlainCallback(cb)
    ensures Agree(Alu(c, cb), Alu(d, cb)) && Alu(c, cb).db == Alu(d, cb).db
    ensures Alu(c, cb).lo == c.lo && Alu(c, cb).hi == c.hi
  {
    hide AluA, AluX, AluY, AluSp, AluP, AluDb;
    PartsAgree(c, d, cb);
  }

  lemma CalledAgrees(c: Core, d: Core, cb: Callback)
    requires Agree(c, d) && c.db == d.db && PlainCallback(cb)
    ensures Agree(Called(c, cb).core, Called(d, cb).core)
  {
    hide Alu, Agree;
    AluAgrees(c, d, cb);
  }

  lemma JamAgrees(c: Core, d: Core)
    requires Agree(c, d)
    ensures Agree(Called(c, Callback.JAM).core, Called(d, Callback.JAM).core)
  {
    hide Alu;
    JamIs(c);
    JamIs(d);
  }

  lemma IdleAgrees(c: Core, d: Core, cb: Callback)
    requires Agree(c, d) && (cb.NoOp? || cb.JAM?)
    ensures Agree(Called(c, cb).core, Called(d, cb).core)
  {
    hide Agree, Alu;
    if cb.NoOp? {
    } else {
      JamAgrees(c, d);
    }
  }

  // --- the last read

  lemma RegisterAgrees(c: Core, d: Core, target: Target, v: byte)
    requires Agree(c, d) && ReadTarget(target)
    ensures var e, f := WriteRegister(c, target, v), WriteRegister(d, target, v);
      Agree(e, f) && (target.DataBus? ==> e.db == v && f.db == v)
  {
    hide WithNZ, TargetPc, StatusPulled;
  }

  lemma FinishedAgrees(c: Core, d: Core, addr: word, target: Target, cb: Callback, dev: Device)
    requires Agree(c, d) && ReadEntry(target, cb)
    ensures Agree(Finished(c, addr, target, cb, dev),
                  Called(WriteRegister(d.(log := Look(d.log, addr, dev)), target, Answer(d.log, addr, dev)), cb).core)
  {
    hide Called, WriteRegister, PlainCallback;
    var v := LoadValue(c, addr, dev);
    var e, f := WriteRegister(Load(c, addr, dev), target, v), WriteRegister(d.(log := Look(d.log, addr, dev)), target, v);
    RegisterAgrees(Load(c, addr, dev), d.(log := Look(d.log, addr, dev)), target, v);
    hide Agree;
    if target.DataBus? {
      CalledAgrees(e, f, cb);
    } else {
      IdleAgrees(e, f, cb);
    }
  }

  lemma NZTwice(p: byte, v: byte, w: byte)
    ensures WithNZ(WithNZ(p, v), w) == WithNZ(p, w)
  {
  }

  lemma StatusTwice(p: byte, target: Target, v: byte, w: byte)
    ensures TargetStatus(TargetStatus(p, target, v), target, w) == TargetStatus(p, target, w)
  {
    hide WithNZ;
    NZTwice(p, v, w);
  }

  /** A register that was loaded with the wrong byte is loaded again. */
  lemma WrittenTwice(c: Core, d: Core, target: Target, v: byte, hi: byte, log: seq<Access>, w: byte)
    requires Agree(c, d) && ReadTarget(target)
    ensures var e := WriteRegister(c, target, v).(hi := hi, log := log);
      var f := d.(log := log);
      && Agree(WriteRegister(e, target, w), WriteRegister(f, target, w))
      && (target.DataBus? ==> WriteRegister(e, target, w).db == w && WriteRegister(f, target, w).db == w)
  {
    hide TargetStatus, TargetPc;
    PcUntouched(c.pc, target, v);
    PcUntouched(c.pc, target, w);
    StatusTwice(c.p, target, v, w);
  }

  lemma PcUntouched(pc: word, target: Target, v: byte)
    requires ReadTarget(target)
    ensures TargetPc(pc, target, v) == pc
  {
  }

  lemma FinishedAgain(c: Core, d: Core, first: word, addr: word, target: Target, cb: Callback, hi: byte, dev: Device)
    requires Agree(c, d) && ReadEntry(target, cb)
    ensures var e := WriteRegister(Load(c, first, dev), target, LoadValue(c, first, dev)).(hi := hi);
      var f := d.(log := Look(Look(d.log, first, dev), addr, dev));
      Agree(Finished(e, addr, target, cb, dev), Called(WriteRegister(f, target, Answer(Look(d.log, first, dev), addr, dev)), cb).core)
  {
    hide Called, WriteRegister, PlainCallback, Agree;
    var l := Look(d.log, first, dev);
    assert Agree(c, d) ==> c.log == d.log by { AgreeLog(c, d); }
    var e := WriteRegister(Load(c, first, dev), target, LoadValue(c, first, dev)).(hi := hi);
    LogKept(Load(c, first, dev), target, LoadValue(c, first, dev));
    assert e.log == l;
    var w := Answer(l, addr, dev);
    var m := Look(l, addr, dev);
    AgreeLogged(c, d, l);
    WrittenTwice(Load(c, first, dev), d.(log := l), target, LoadValue(c, first, dev), hi, m, w);
    var g, h := WriteRegister(e.(log := m), target, w), WriteRegister(d.(log := m), target, w);
    assert Load(e, addr, dev) == e.(log := m);
    if target.DataBus? {
      CalledAgrees(g, h, cb);
    } else {
      IdleAgrees(g, h, cb);
    }
  }

  lemma AgreeLog(c: Core, d: Core)
    ensures Agree(c, d) ==> c.log == d.log
  {
  }

  lemma AgreeLogged(c: Core, d: Core, l: seq<Access>)
    requires Agree(c, d)
    ensures Agree(c.(log := l), d.(log := l))
  {
  }

  lemma LogKept(c: Core, target: Target, v: byte)
    ensures WriteRegister(c, target, v).log == c.log
  {
    hide TargetPc, TargetStatus;
  }

  // --- the writes

  lemma StoreAgrees(c: Core, d: Core, addr: word, v: byte)
    requires Agree(c, d)
    ensures Agree(Store(c, addr, v), Store(d, addr, v))
    ensures Store(c, addr, v).db == c.db && Store(c, addr, v).lo == c.lo && Store(c, addr, v).hi == c.hi
    ensures Store(c, addr, v).rdy == (c.rdy || addr == DMA_ADDRESS) && Store(c, addr, v).halted == c.halted
  {
  }

  lemma StoredAgrees(c: Core, d: Core, to: Target, src: Source, cb: Callback)
    requires Agree(c, d) && StoreEntry(src, cb)
    ensures Agree(Store(if cb.SAX? then c.(db := And(c.a, c.x)) else c, TargetAddress(c, to), StoredByte(c, src, cb)),
                  Store(d, TargetAddress(c, to), StoredByte(d, src, cb)))
  {
    hide And, TargetAddress;
  }

  lemma ModifyPlain(cb: Callback)
    requires ModifyCallback(cb)
    ensures PlainCallback(cb) && !cb.JAM?
  {
  }

  lemma ModifiedAgrees(c: Core, d: Core, addr: word, v: byte, cb: Callback)
    requires Agree(c, d) && c.db == v && d.db == v && ModifyCallback(cb)
    ensures var m, n := Alu(Store(c, addr, v), cb), Alu(Store(d, addr, v), cb);
      && Agree(m, n) && m.db == n.db && m.lo == c.lo && m.hi == c.hi
      && m.rdy == (c.rdy || addr == DMA_ADDRESS) && m.halted == c.halted
  {
    hide Alu, Agree, Store, PlainCallback, ModifyCallback;
    StoreAgrees(c, d, addr, v);
    StoreAgrees(d, c, addr, v) by { AgreeBack(c, d); }
    ModifyPlain(cb);
    AluAgrees(Store(c, addr, v), Store(d, addr, v), cb);
    AluFlags(Store(c, addr, v), cb);
  }

  lemma AgreeBack(c: Core, d: Core)
    requires Agree(c, d)
    ensures Agree(d, c)
  {
  }

  lemma AluFlags(c: Core, cb: Callback)
    requires !cb.JAM?
    ensures Alu(c, cb).rdy == c.rdy && Alu(c, cb).halted == c.halted && Alu(c, cb).log == c.log
  {
    hide AluA, AluX, AluY, AluSp, AluP, AluDb, AluHi;
  }
}
