/** What the callbacks of micro-operations do to the registers. */
module CpuAlu {
  import opened Bits
  import opened CpuTypes

  // --- status bits

  const CARRY: byte := 0x01
  const ZERO: byte := 0x02
  const IRQ_DISABLE: byte := 0x04
  const DECIMAL: byte := 0x08
  const OVERFLOW: byte := 0x40
  const NEGATIVE: byte := 0x80

  /** `p` with the bits of `mask` set or cleared. */
  function WithFlag(p: byte, mask: byte, on: bool): byte {
    if on then p | mask else p & !mask
  }

  predicate Flag(p: byte, mask: byte) {
    p & mask != 0
  }

  function WithNZ(p: byte, result: byte): byte {
    WithFlag(WithFlag(p, NEGATIVE, Flag(result, NEGATIVE)), ZERO, result == 0)
  }

  predicate Holds(p: byte, c: Condition) {
    match c
    case CarrySet => Flag(p, CARRY)
    case CarryClear => !Flag(p, CARRY)
    case ZeroSet => Flag(p, ZERO)
    case ZeroClear => !Flag(p, ZERO)
    case NegativeSet => Flag(p, NEGATIVE)
    case NegativeClear => !Flag(p, NEGATIVE)
    case OverflowSet => Flag(p, OVERFLOW)
    case OverflowClear => !Flag(p, OVERFLOW)
  }

  // --- shifts and sums: a result and the carry that comes out

  datatype Shifted = Shifted(result: byte, carry: bool)

  function ShiftLeft(d: byte): Shifted { Shifted(d << 1, Flag(d, NEGATIVE)) }
  function ShiftRight(d: byte): Shifted { Shifted(d >> 1, Flag(d, CARRY)) }
  function RotateLeft(d: byte, carry: bool): Shifted { Shifted((d << 1) | (if carry then 1 else 0), Flag(d, NEGATIVE)) }
  function RotateRight(d: byte, carry: bool): Shifted { Shifted((d >> 1) | (if carry then 0x80 else 0), Flag(d, CARRY)) }

  /** The nine-bit sum of two bytes and a carry. */
  function Sum(a: byte, m: byte, carry: bool): word {
    (a as word) + (m as word) + (if carry then 1 else 0)
  }

  function SumByte(a: byte, m: byte, carry: bool): byte { Low(Sum(a, m, carry)) }
  predicate SumCarry(a: byte, m: byte, carry: bool) { Sum(a, m, carry) > 0xFF }
  predicate SumOverflow(a: byte, m: byte, carry: bool) {
    (!(a ^ m) & (a ^ SumByte(a, m, carry))) & NEGATIVE != 0
  }

  /** The status after a sum. */
  function SumFlags(p: byte, a: byte, m: byte): byte {
    var carry := Flag(p, CARRY);
    WithNZ(WithFlag(WithFlag(p, CARRY, SumCarry(a, m, carry)), OVERFLOW, SumOverflow(a, m, carry)), SumByte(a, m, carry))
  }

  /** The overflow test of a subtraction, on the complemented operand. */
  predicate DifferenceOverflow(a: byte, value: byte, carry: bool) {
    ((value ^ SumByte(a, value, carry)) & (a ^ SumByte(a, value, carry))) & NEGATIVE != 0
  }

  function DifferenceFlags(p: byte, a: byte, value: byte): byte {
    var carry := Flag(p, CARRY);
    WithNZ(WithFlag(WithFlag(p, CARRY, SumCarry(a, value, carry)), OVERFLOW, DifferenceOverflow(a, value, carry)),
           SumByte(a, value, carry))
  }

  function Compared(p: byte, r: byte, m: byte): byte {
    WithFlag(WithFlag(WithFlag(p, ZERO, m == r), CARRY, !Less(r, m)), NEGATIVE, Flag(Minus(r, m), NEGATIVE))
  }

  function ShiftFlags(p: byte, s: Shifted): byte {
    WithNZ(WithFlag(p, CARRY, s.carry), s.result)
  }

  function BitFlags(p: byte, a: byte, m: byte): byte {
    WithFlag(WithFlag(WithFlag(p, ZERO, And(a, m) == 0), NEGATIVE, Flag(m, NEGATIVE)), OVERFLOW, Flag(m, OVERFLOW))
  }

  function ArrFlags(p: byte, v: byte): byte {
    WithFlag(WithFlag(WithNZ(p, v), CARRY, Flag(v, 0x40)), OVERFLOW, Flag(v, 0x40) != Flag(v, 0x20))
  }

  // --- callbacks, one register at a time

  const ANE_CONSTANT: byte := 0xEE

  function CarryOf(c: Core): bool { Flag(c.p, CARRY) }

  /** The plain shifts work on the accumulator in the implied mode and on the data latch otherwise. */
  function ShiftOperand(c: Core): byte {
    if c.op.AccumulatorOrImplied? then c.a else c.db
  }

  predicate IsShift(cb: Callback) {
    cb.ASL? || cb.LSR? || cb.ROL? || cb.ROR?
  }

  function ShiftOf(c: Core, cb: Callback): Shifted
    requires IsShift(cb)
  {
    match cb
    case ASL => ShiftLeft(ShiftOperand(c))
    case LSR => ShiftRight(ShiftOperand(c))
    case ROL => RotateLeft(ShiftOperand(c), CarryOf(c))
    case ROR => RotateRight(ShiftOperand(c), CarryOf(c))
  }

  function Complement(b: byte): byte { Xor(b, 0xFF) }

  function AluA(c: Core, cb: Callback): byte {
    match cb
    case ADC => SumByte(c.a, c.db, CarryOf(c))
    case SBC => SumByte(c.a, Complement(c.db), CarryOf(c))
    case AND | ANC => And(c.a, c.db)
    case EOR => Xor(c.a, c.db)
    case ORA => Or(c.a, c.db)
    case TXA => c.x
    case TYA => c.y
    case ASL | LSR | ROL | ROR => if c.op.AccumulatorOrImplied? then ShiftOf(c, cb).result else c.a
    case LAX => c.db
    case LXA => And(Or(c.a, ANE_CONSTANT), c.db)
    case ANE => And(And(Or(c.a, ANE_CONSTANT), c.x), c.db)
    case LAS => And(c.db, c.sp)
    case ALR => ShiftRight(And(c.a, c.db)).result
    case ARR => RotateRight(And(c.a, c.db), CarryOf(c)).result
    case SLO => Or(c.a, ShiftLeft(c.db).result)
    case RLA => And(c.a, RotateLeft(c.db, CarryOf(c)).result)
    case SRE => Xor(c.a, ShiftRight(c.db).result)
    case RRA => var s := RotateRight(c.db, CarryOf(c)); SumByte(c.a, s.result, s.carry)
    case ISB => SumByte(c.a, Complement(Inc(c.db)), CarryOf(c))
    case _ => c.a
  }

  function AluX(c: Core, cb: Callback): byte {
    match cb
    case DEX => Dec(c.x)
    case INX => Inc(c.x)
    case TAX => c.a
    case TSX => c.sp
    case LAX | LXA | LAS => AluA(c, cb)
    case SBX => Minus(And(c.a, c.x), c.db)
    case _ => c.x
  }

  function AluY(c: Core, cb: Callback): byte {
    match cb
    case DEY => Dec(c.y)
    case INY => Inc(c.y)
    case TAY => c.a
    case _ => c.y
  }

  function AluSp(c: Core, cb: Callback): byte {
    match cb
    case TXS => c.x
    case LAS => AluA(c, cb)
    case _ => c.sp
  }

  /** The store opcodes that combine a register with the high address byte, one higher unless the index carried. */
  function HighAnd(c: Core, r: byte, index: byte): byte {
    if Less(c.lo, index) then And(r, c.hi) else And(r, Inc(c.hi))
  }

  function AluDb(c: Core, cb: Callback): byte {
    match cb
    case ASL | LSR | ROL | ROR => if c.op.AccumulatorOrImplied? then c.db else ShiftOf(c, cb).result
    case DEC | DCP => Dec(c.db)
    case INC | ISB => Inc(c.db)
    case SLO => ShiftLeft(c.db).result
    case RLA => RotateLeft(c.db, CarryOf(c)).result
    case SRE => ShiftRight(c.db).result
    case RRA => RotateRight(c.db, CarryOf(c)).result
    case SAX => And(c.a, c.x)
    case SHX => HighAnd(c, c.x, c.y)
    case SHY => HighAnd(c, c.y, c.x)
    case _ => c.db
  }

  function AluHi(c: Core, cb: Callback): byte {
    match cb
    case SHX => if Less(c.lo, c.y) then And(c.x, c.hi) else c.hi
    case SHY => if Less(c.lo, c.x) then And(c.y, c.hi) else c.hi
    case _ => c.hi
  }

  /** The status after the callbacks that change one flag. */
  function FlagP(p: byte, cb: Callback): byte {
    match cb
    case CLC => WithFlag(p, CARRY, false)
    case CLD => WithFlag(p, DECIMAL, false)
    case CLI => WithFlag(p, IRQ_DISABLE, false)
    case CLV => WithFlag(p, OVERFLOW, false)
    case SEC => WithFlag(p, CARRY, true)
    case SED => WithFlag(p, DECIMAL, true)
    case SEI => WithFlag(p, IRQ_DISABLE, true)
    case _ => p
  }

  predicate IsFlagCallback(cb: Callback) {
    cb.CLC? || cb.CLD? || cb.CLI? || cb.CLV? || cb.SEC? || cb.SED? || cb.SEI?
  }

  /** Callbacks after which the sign and zero flags describe one new byte and no other flag changes. */
  predicate SetsNZ(cb: Callback) {
    cb.AND? || cb.EOR? || cb.ORA? || cb.TXA? || cb.TYA? || cb.LAX? || cb.LXA? || cb.LAS?
    || cb.DEX? || cb.INX? || cb.TAX? || cb.TSX? || cb.DEY? || cb.INY? || cb.TAY? || cb.DEC? || cb.INC?
  }

  function NewByte(c: Core, cb: Callback): byte {
    match cb
    case DEX | INX | TAX | TSX => AluX(c, cb)
    case DEY | INY | TAY => AluY(c, cb)
    case DEC | INC => AluDb(c, cb)
    case _ => AluA(c, cb)
  }

  /** The status after sums, differences and comparisons. */
  function ArithmeticP(c: Core, cb: Callback): byte {
    match cb
    case ADC => SumFlags(c.p, c.a, c.db)
    case SBC => DifferenceFlags(c.p, c.a, Complement(c.db))
    case CMP => Compared(c.p, c.a, c.db)
    case CPX => Compared(c.p, c.x, c.db)
    case CPY => Compared(c.p, c.y, c.db)
    case SBX => Compared(c.p, And(c.a, c.x), c.db)
    case BIT => BitFlags(c.p, c.a, c.db)
    case ARR => ArrFlags(c.p, AluA(c, cb))
    case DCP => Compared(WithNZ(c.p, AluDb(c, cb)), c.a, AluDb(c, cb))
    case ISB => DifferenceFlags(WithNZ(c.p, AluDb(c, cb)), c.a, Complement(AluDb(c, cb)))
    case _ => c.p
  }

  predicate IsCombinedShift(cb: Callback) {
    cb.SLO? || cb.RLA? || cb.SRE? || cb.RRA? || cb.ALR? || cb.ANC?
  }

  /** The status after the callbacks that shift and then combine. */
  function CombinedP(c: Core, cb: Callback): byte {
    match cb
    case SLO => WithNZ(ShiftFlags(c.p, ShiftLeft(c.db)), AluA(c, cb))
    case RLA => WithNZ(ShiftFlags(c.p, RotateLeft(c.db, CarryOf(c))), AluA(c, cb))
    case SRE => WithNZ(ShiftFlags(c.p, ShiftRight(c.db)), AluA(c, cb))
    case RRA => var s := RotateRight(c.db, CarryOf(c)); SumFlags(ShiftFlags(c.p, s), c.a, s.result)
    case ALR => ShiftFlags(WithNZ(c.p, And(c.a, c.db)), ShiftRight(And(c.a, c.db)))
    case ANC => var v := And(c.a, c.db); WithFlag(WithNZ(c.p, v), CARRY, Flag(v, NEGATIVE))
    case _ => c.p
  }

  function AluP(c: Core, cb: Callback): byte {
    if IsFlagCallback(cb) then FlagP(c.p, cb)
    else if SetsNZ(cb) then WithNZ(c.p, NewByte(c, cb))
    else if IsShift(cb) then ShiftFlags(c.p, ShiftOf(c, cb))
    else if IsCombinedShift(cb) then CombinedP(c, cb)
    else ArithmeticP(c, cb)
  }

  /** The registers after callback `cb`.  Branches only schedule work; interrupt callbacks touch no register. */
  function Alu(c: Core, cb: Callback): Core {
    c.(a := AluA(c, cb), x := AluX(c, cb), y := AluY(c, cb), sp := AluSp(c, cb), p := AluP(c, cb),
       db := AluDb(c, cb), hi := AluHi(c, cb),
       halted := c.halted || cb.JAM?,
       shaRdyLow := if cb.ShaRdyCheck? then c.rdy else c.shaRdyLow)
  }
}
