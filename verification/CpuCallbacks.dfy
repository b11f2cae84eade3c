/** Each callback by itself: which registers it changes, and to what. */
module CpuCallbacks {
  import opened Bits
  import opened CpuTypes
  import opened CpuAlu

  // --- transfers and steps

  lemma TaxIs(c: Core)
    ensures Alu(c, Callback.TAX) == c.(x := c.a, p := WithNZ(c.p, c.a))
  {
    hide WithNZ;
  }

  lemma TayIs(c: Core)
    ensures Alu(c, Callback.TAY) == c.(y := c.a, p := WithNZ(c.p, c.a))
  {
    hide WithNZ;
  }

  lemma TxaIs(c: Core)
    ensures Alu(c, Callback.TXA) == c.(a := c.x, p := WithNZ(c.p, c.x))
  {
    hide WithNZ;
  }

  lemma TyaIs(c: Core)
    ensures Alu(c, Callback.TYA) == c.(a := c.y, p := WithNZ(c.p, c.y))
  {
    hide WithNZ;
  }

  lemma TsxIs(c: Core)
    ensures Alu(c, Callback.TSX) == c.(x := c.sp, p := WithNZ(c.p, c.sp))
  {
    hide WithNZ;
  }

  lemma TxsIs(c: Core)
    ensures Alu(c, Callback.TXS) == c.(sp := c.x)
  {
  }

  lemma DexIs(c: Core)
    ensures Alu(c, Callback.DEX) == c.(x := Dec(c.x), p := WithNZ(c.p, Dec(c.x)))
  {
    hide WithNZ, Dec;
  }

  lemma DeyIs(c: Core)
    ensures Alu(c, Callback.DEY) == c.(y := Dec(c.y), p := WithNZ(c.p, Dec(c.y)))
  {
    hide WithNZ, Dec;
  }

  lemma InxIs(c: Core)
    ensures Alu(c, Callback.INX) == c.(x := Inc(c.x), p := WithNZ(c.p, Inc(c.x)))
  {
    hide WithNZ, Inc;
  }

  lemma InyIs(c: Core)
    ensures Alu(c, Callback.INY) == c.(y := Inc(c.y), p := WithNZ(c.p, Inc(c.y)))
  {
    hide WithNZ, Inc;
  }

  lemma DecIs(c: Core)
    ensures Alu(c, Callback.DEC) == c.(db := Dec(c.db), p := WithNZ(c.p, Dec(c.db)))
  {
    hide WithNZ, Dec;
  }

  lemma IncIs(c: Core)
    ensures Alu(c, Callback.INC) == c.(db := Inc(c.db), p := WithNZ(c.p, Inc(c.db)))
  {
    hide WithNZ, Inc;
  }

  // --- flags

  lemma FlagKeepsRegisters(c: Core, cb: Callback)
    requires IsFlagCallback(cb)
    ensures AluA(c, cb) == c.a && AluX(c, cb) == c.x && AluY(c, cb) == c.y
  {
    match cb {
      case CLC =>
      case CLD =>
      case CLI =>
      case CLV =>
      case SEC =>
      case SED =>
      case SEI =>
    }
  }

  lemma FlagKeepsLatches(c: Core, cb: Callback)
    requires IsFlagCallback(cb)
    ensures AluSp(c, cb) == c.sp && AluDb(c, cb) == c.db && AluHi(c, cb) == c.hi
  {
    match cb {
      case CLC =>
      case CLD =>
      case CLI =>
      case CLV =>
      case SEC =>
      case SED =>
      case SEI =>
    }
  }

  lemma FlagIs(c: Core, cb: Callback)
    requires IsFlagCallback(cb)
    ensures Alu(c, cb) == c.(p := FlagP(c.p, cb))
  {
    hide FlagP, AluA, AluX, AluY, AluSp, AluDb, AluHi;
    FlagKeepsRegisters(c, cb);
    FlagKeepsLatches(c, cb);
  }

  // --- logic and loads

  lemma AndIs(c: Core)
    ensures Alu(c, Callback.AND) == c.(a := And(c.a, c.db), p := WithNZ(c.p, And(c.a, c.db)))
  {
    hide WithNZ, And;
  }

  lemma EorIs(c: Core)
    ensures Alu(c, Callback.EOR) == c.(a := Xor(c.a, c.db), p := WithNZ(c.p, Xor(c.a, c.db)))
  {
    hide WithNZ, Xor;
  }

  lemma OraIs(c: Core)
    ensures Alu(c, Callback.ORA) == c.(a := Or(c.a, c.db), p := WithNZ(c.p, Or(c.a, c.db)))
  {
    hide WithNZ, Or;
  }

  lemma LaxIs(c: Core)
    ensures Alu(c, Callback.LAX) == c.(a := c.db, x := c.db, p := WithNZ(c.p, c.db))
  {
    hide WithNZ;
  }

  lemma LxaIs(c: Core)
    ensures var v := And(Or(c.a, ANE_CONSTANT), c.db);
      Alu(c, Callback.LXA) == c.(a := v, x := v, p := WithNZ(c.p, v))
  {
    hide WithNZ, And, Or;
  }

  lemma AneIs(c: Core)
    ensures Alu(c, Callback.ANE) == c.(a := And(And(Or(c.a, ANE_CONSTANT), c.x), c.db))
  {
    hide And, Or;
  }

  lemma LasIs(c: Core)
    ensures var v := And(c.db, c.sp);
      Alu(c, Callback.LAS) == c.(a := v, x := v, sp := v, p := WithNZ(c.p, v))
  {
    hide WithNZ, And;
  }

  lemma SaxIs(c: Core)
    ensures Alu(c, Callback.SAX) == c.(db := And(c.a, c.x))
  {
    hide And;
  }

  lemma BitIs(c: Core)
    ensures Alu(c, Callback.BIT) == c.(p := BitFlags(c.p, c.a, c.db))
  {
    hide BitFlags;
  }

  // --- sums and comparisons

  lemma AdcIs(c: Core)
    ensures Alu(c, Callback.ADC) == c.(a := SumByte(c.a, c.db, CarryOf(c)), p := SumFlags(c.p, c.a, c.db))
  {
    hide SumByte, SumFlags, CarryOf;
  }

  lemma SbcIs(c: Core)
    ensures var v := Complement(c.db);
      Alu(c, Callback.SBC) == c.(a := SumByte(c.a, v, CarryOf(c)), p := DifferenceFlags(c.p, c.a, v))
  {
    hide SumByte, DifferenceFlags, CarryOf, Complement;
  }

  lemma CmpIs(c: Core)
    ensures Alu(c, Callback.CMP) == c.(p := Compared(c.p, c.a, c.db))
  {
    hide Compared;
  }

  lemma CpxIs(c: Core)
    ensures Alu(c, Callback.CPX) == c.(p := Compared(c.p, c.x, c.db))
  {
    hide Compared;
  }

  lemma CpyIs(c: Core)
    ensures Alu(c, Callback.CPY) == c.(p := Compared(c.p, c.y, c.db))
  {
    hide Compared;
  }

  lemma SbxIs(c: Core)
    ensures var t := And(c.a, c.x);
      Alu(c, Callback.SBX) == c.(x := Minus(t, c.db), p := Compared(c.p, t, c.db))
  {
    hide Compared, And, Minus;
  }

  lemma DcpIs(c: Core)
    ensures var v := Dec(c.db);
      Alu(c, Callback.DCP) == c.(db := v, p := Compared(WithNZ(c.p, v), c.a, v))
  {
    hide Compared, WithNZ, Dec;
  }

  lemma IsbIs(c: Core)
    ensures var v := Inc(c.db);
      Alu(c, Callback.ISB) == c.(db := v, a := SumByte(c.a, Complement(v), CarryOf(c)),
                        p := DifferenceFlags(WithNZ(c.p, v), c.a, Complement(v)))
  {
    hide SumByte, DifferenceFlags, CarryOf, Complement, WithNZ, Inc;
  }

  // --- shifts

  lemma ShiftKeeps(c: Core, cb: Callback)
    requires IsShift(cb)
    ensures AluX(c, cb) == c.x && AluY(c, cb) == c.y && AluSp(c, cb) == c.sp && AluHi(c, cb) == c.hi
  {
    match cb {
      case ASL =>
      case LSR =>
      case ROL =>
      case ROR =>
    }
  }

  lemma ShiftStatus(c: Core, cb: Callback)
    requires IsShift(cb)
    ensures AluP(c, cb) == ShiftFlags(c.p, ShiftOf(c, cb))
  {
    hide ShiftOf, ShiftFlags, NewByte, CombinedP, ArithmeticP, FlagP, WithNZ;
  }

  lemma ShiftResult(c: Core, cb: Callback)
    requires IsShift(cb)
    ensures AluA(c, cb) == if c.op.AccumulatorOrImplied? then ShiftOf(c, cb).result else c.a
    ensures AluDb(c, cb) == if c.op.AccumulatorOrImplied? then c.db else ShiftOf(c, cb).result
  {
    hide ShiftOf;
  }

  /** A plain shift works in place on the accumulator or on the data latch. */
  lemma AccumulatorShiftIs(c: Core, cb: Callback)
    requires IsShift(cb) && c.op.AccumulatorOrImplied?
    ensures var s := ShiftOf(c, cb); Alu(c, cb) == c.(a := s.result, p := ShiftFlags(c.p, s))
  {
    hide ShiftOf, ShiftFlags, AluX, AluY, AluSp, AluHi, AluP, AluA, AluDb, IsShift;
    ShiftKeeps(c, cb);
    ShiftStatus(c, cb);
    ShiftResult(c, cb);
    ShiftRuns(c, cb);
  }

  lemma LatchShiftIs(c: Core, cb: Callback)
    requires IsShift(cb) && !c.op.AccumulatorOrImplied?
    ensures var s := ShiftOf(c, cb); Alu(c, cb) == c.(db := s.result, p := ShiftFlags(c.p, s))
  {
    hide ShiftOf, ShiftFlags, AluX, AluY, AluSp, AluHi, AluP, AluA, AluDb, IsShift;
    ShiftKeeps(c, cb);
    ShiftStatus(c, cb);
    ShiftResult(c, cb);
    ShiftRuns(c, cb);
  }

  lemma ShiftRuns(c: Core, cb: Callback)
    requires IsShift(cb)
    ensures !cb.JAM? && !cb.ShaRdyCheck?
  {
  }

  lemma SloIs(c: Core)
    ensures var s := ShiftLeft(c.db);
      Alu(c, Callback.SLO) == c.(db := s.result, a := Or(c.a, s.result), p := WithNZ(ShiftFlags(c.p, s), Or(c.a, s.result)))
  {
    hide ShiftLeft, ShiftFlags, WithNZ, Or;
  }

  lemma RlaIs(c: Core)
    ensures var s := RotateLeft(c.db, CarryOf(c));
      Alu(c, Callback.RLA) == c.(db := s.result, a := And(c.a, s.result), p := WithNZ(ShiftFlags(c.p, s), And(c.a, s.result)))
  {
    hide RotateLeft, ShiftFlags, WithNZ, And, CarryOf;
  }

  lemma SreIs(c: Core)
    ensures var s := ShiftRight(c.db);
      Alu(c, Callback.SRE) == c.(db := s.result, a := Xor(c.a, s.result), p := WithNZ(ShiftFlags(c.p, s), Xor(c.a, s.result)))
  {
    hide ShiftRight, ShiftFlags, WithNZ, Xor;
  }

  lemma RraIs(c: Core)
    ensures var s := RotateRight(c.db, CarryOf(c));
      Alu(c, Callback.RRA) == c.(db := s.result, a := SumByte(c.a, s.result, s.carry), p := SumFlags(ShiftFlags(c.p, s), c.a, s.result))
  {
    hide RotateRight, ShiftFlags, SumByte, SumFlags, CarryOf;
  }

  lemma AlrIs(c: Core)
    ensures var v := And(c.a, c.db);
      var s := ShiftRight(v);
      Alu(c, Callback.ALR) == c.(a := s.result, p := ShiftFlags(WithNZ(c.p, v), s))
  {
    hide ShiftRight, ShiftFlags, WithNZ, And;
  }

  lemma AncIs(c: Core)
    ensures var v := And(c.a, c.db);
      Alu(c, Callback.ANC) == c.(a := v, p := WithFlag(WithNZ(c.p, v), CARRY, Flag(v, NEGATIVE)))
  {
    hide WithNZ, WithFlag, Flag, And;
  }

  lemma ArrIs(c: Core)
    ensures var v := RotateRight(And(c.a, c.db), CarryOf(c)).result;
      Alu(c, Callback.ARR) == c.(a := v, p := ArrFlags(c.p, v))
  {
    hide RotateRight, ArrFlags, And, CarryOf;
  }

  // --- the unstable stores, and the rest

  lemma ShxIs(c: Core)
    ensures Alu(c, Callback.SHX) == c.(db := HighAnd(c, c.x, c.y), hi := if Less(c.lo, c.y) then And(c.x, c.hi) else c.hi)
  {
    hide HighAnd, And, Less;
  }

  lemma ShyIs(c: Core)
    ensures Alu(c, Callback.SHY) == c.(db := HighAnd(c, c.y, c.x), hi := if Less(c.lo, c.x) then And(c.y, c.hi) else c.hi)
  {
    hide HighAnd, And, Less;
  }

  lemma JamIs(c: Core)
    ensures Alu(c, Callback.JAM) == c.(halted := true)
  {
  }

  lemma ShaRdyCheckIs(c: Core)
    ensures Alu(c, ShaRdyCheck) == c.(shaRdyLow := c.rdy)
  {
  }
}
