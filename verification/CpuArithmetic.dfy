/** Additions and subtractions of numbers of any length, one byte at a time. */
module CpuArithmetic {
  import opened Bits
  import opened CpuTypes
  import opened CpuAlu
  import CpuCallbacks

  // --- one byte in numbers

  function Carry(b: bool): nat { if b then 1 else 0 }

  lemma SumZero(a: byte, carry: bool)
    ensures SumByte(a, 0, carry) == (if carry then Inc(a) else a)
    ensures SumCarry(a, 0, carry) <==> carry && a == 0xFF
  {
  }

  lemma SumSucc(a: byte, m: byte, carry: bool)
    requires m != 0xFF
    ensures SumByte(a, Inc(m), carry) == Inc(SumByte(a, m, carry))
    ensures SumCarry(a, Inc(m), carry) <==> SumCarry(a, m, carry) || SumByte(a, m, carry) == 0xFF
    ensures !(SumCarry(a, m, carry) && SumByte(a, m, carry) == 0xFF)
  {
    SumNext(a, m, carry);
    SumRange(a, m, carry);
    LowNext(Sum(a, m, carry));
    hide Sum, Inc, Low;
  }

  lemma SumNext(a: byte, m: byte, carry: bool)
    requires m != 0xFF
    ensures Sum(a, Inc(m), carry) == Sum(a, m, carry) + 1
  {
  }

  lemma SumRange(a: byte, m: byte, carry: bool)
    requires m != 0xFF
    ensures Sum(a, m, carry) <= 0x1FE
  {
  }

  lemma LowNext(s: word)
    requires s <= 0x1FE
    ensures Low(s + 1) == Inc(Low(s)) && (s + 1 > 0xFF <==> s > 0xFF || Low(s) == 0xFF) && !(s > 0xFF && Low(s) == 0xFF)
  {
  }

  lemma IncNum(b: byte)
    ensures Num(Inc(b)) == if b == 0xFF then 0 else Num(b) + 1
    ensures b == 0xFF ==> Num(b) == 255
  {
  }

  lemma Predecessor(m: byte) returns (p: byte)
    requires m != 0
    ensures p != 0xFF && m == Inc(p)
  {
    p := m - 1;
  }

  lemma NumZero()
    ensures Num(0) == 0
  {
  }

  /** The sum byte and the carry are the sum. */
  lemma {:induction false} SumNumbers(a: byte, m: byte, carry: bool)
    ensures Num(SumByte(a, m, carry)) + 256 * Carry(SumCarry(a, m, carry)) == Num(a) + Num(m) + Carry(carry)
    decreases Num(m)
  {
    if m == 0 {
      hide Num, Inc, SumByte, SumCarry;
      SumZero(a, carry);
      NumZero();
      IncNum(a);
    } else {
      var p := Predecessor(m);
      hide Num, Inc, SumByte, SumCarry;
      IncNum(p);
      SumNumbers(a, p, carry);
      SumSucc(a, p, carry);
      IncNum(SumByte(a, p, carry));
    }
  }

  lemma ComplementDifference(m: byte)
    ensures Complement(m) == Minus(0xFF, m) && Le(m, 0xFF)
  {
  }

  lemma ComplementNum(m: byte)
    ensures Num(Complement(m)) == 255 - Num(m)
  {
    hide Num, Complement, Minus, Le;
    ComplementDifference(m);
    NumDifference(m, 0xFF);
    IncNum(0xFF);
  }

  // --- signs and overflow

  predicate Sign(b: byte) { b & 0x80 != 0 }

  lemma SignOrder(b: byte)
    ensures Sign(b) <==> !(b < 0x80)
  {
  }

  lemma SignNum(b: byte)
    ensures Sign(b) <==> Num(b) >= 128
    ensures 0 <= Num(b) <= 255
  {
    hide Num;
    SignOrder(b);
    NumOrder(b, 0x80);
    assert Num(0x80) == 128 by { HalfNum(); }
    NumRange(b);
  }

  lemma HalfNum()
    ensures Num(0x80) == 128
  {
  }

  lemma NumRange(b: byte)
    ensures 0 <= Num(b) <= 255
  {
  }

  lemma SumOverflowSigns(a: byte, m: byte, carry: bool)
    ensures SumOverflow(a, m, carry) <==> Sign(a) == Sign(m) && Sign(a) != Sign(SumByte(a, m, carry))
  {
    OverflowBits(a, m, SumByte(a, m, carry));
  }

  lemma OverflowBits(a: byte, m: byte, r: byte)
    ensures (!(a ^ m) & (a ^ r)) & NEGATIVE != 0 <==> Sign(a) == Sign(m) && Sign(a) != Sign(r)
    ensures ((m ^ r) & (a ^ r)) & NEGATIVE != 0 <==> Sign(a) == Sign(m) && Sign(a) != Sign(r)
  {
  }

  lemma DifferenceOverflowSigns(a: byte, m: byte, carry: bool)
    ensures DifferenceOverflow(a, m, carry) <==> Sign(a) == Sign(m) && Sign(a) != Sign(SumByte(a, m, carry))
  {
    OverflowBits(a, m, SumByte(a, m, carry));
  }

  // --- the flags of the status register

  lemma FlagsSet(p: byte, r: byte, carry: bool, overflow: bool)
    ensures var q := WithNZ(WithFlag(WithFlag(p, CARRY, carry), OVERFLOW, overflow), r);
      (Flag(q, CARRY) <==> carry) && (Flag(q, OVERFLOW) <==> overflow)
  {
  }

  /** One ADC: the accumulator, the carry and the overflow it leaves. */
  lemma AdcStep(c: Core)
    ensures var d := Alu(c, Callback.ADC);
      && d.a == SumByte(c.a, c.db, CarryOf(c))
      && CarryOf(d) == SumCarry(c.a, c.db, CarryOf(c))
      && Flag(d.p, OVERFLOW) == SumOverflow(c.a, c.db, CarryOf(c))
  {
    hide SumByte, SumCarry, SumOverflow, WithNZ, WithFlag, Flag, Alu;
    var carry := CarryOf(c);
    FlagsSet(c.p, SumByte(c.a, c.db, carry), SumCarry(c.a, c.db, carry), SumOverflow(c.a, c.db, carry));
    CpuCallbacks.AdcIs(c);
  }

  /** One SBC: a sum with the complement. */
  lemma SbcStep(c: Core)
    ensures var d := Alu(c, Callback.SBC);
      && d.a == SumByte(c.a, Complement(c.db), CarryOf(c))
      && CarryOf(d) == SumCarry(c.a, Complement(c.db), CarryOf(c))
      && Flag(d.p, OVERFLOW) == DifferenceOverflow(c.a, Complement(c.db), CarryOf(c))
  {
    hide SumByte, SumCarry, DifferenceOverflow, WithNZ, WithFlag, Flag, Complement, Alu;
    var carry := CarryOf(c);
    var m := Complement(c.db);
    FlagsSet(c.p, SumByte(c.a, m, carry), SumCarry(c.a, m, carry), DifferenceOverflow(c.a, m, carry));
    CpuCallbacks.SbcIs(c);
  }

  // --- numbers of many bytes, the lowest byte first

  function Value(s: seq<byte>): nat {
    if s == [] then 0 else Num(s[0]) + 256 * Value(s[1..])
  }

  function Power(n: nat): nat {
    if n == 0 then 1 else 256 * Power(n - 1)
  }

  predicate Negative(s: seq<byte>)
    requires s != []
  {
    Sign(s[|s| - 1])
  }

  /** The number in two's complement. */
  function SignedValue(s: seq<byte>): int
    requires s != []
  {
    Value(s) - if Negative(s) then Power(|s|) else 0
  }

  datatype Chain = Chain(core: Core, result: seq<byte>)

  /** `operation` on the bytes of `xs` and `ys` in turn, the flags carried along. */
  function Chained(c: Core, xs: seq<byte>, ys: seq<byte>, operation: Callback): Chain
    requires |xs| == |ys|
    decreases |xs|
  {
    hide Alu;
    if xs == [] then Chain(c, [])
    else
      var d := Alu(c.(a := xs[0], db := ys[0]), operation);
      var rest := Chained(d, xs[1..], ys[1..], operation);
      Chain(rest.core, [d.a] + rest.result)
  }

  lemma PowerPositive(n: nat)
    ensures Power(n) > 0
  {
  }

  /** The carry out of an addition is its digit of the next order. */
  lemma {:induction false} AddsNumbers(c: Core, xs: seq<byte>, ys: seq<byte>)
    requires |xs| == |ys|
    ensures var r := Chained(c, xs, ys, Callback.ADC);
      && |r.result| == |xs|
      && Value(r.result) + Power(|xs|) * Carry(CarryOf(r.core)) == Value(xs) + Value(ys) + Carry(CarryOf(c))
    decreases |xs|
  {
    hide Alu, Num, SumByte, SumCarry, CarryOf;
    if xs != [] {
      var e := c.(a := xs[0], db := ys[0]);
      var d := Alu(e, Callback.ADC);
      AdcStep(e);
      SameCarry(c, e);
      SumNumbers(xs[0], ys[0], CarryOf(c));
      AddsNumbers(d, xs[1..], ys[1..]);
      var rest := Chained(d, xs[1..], ys[1..], Callback.ADC);
      assert ([d.a] + rest.result)[1..] == rest.result;
      Carries(Power(|xs| - 1), CarryOf(rest.core));
    }
  }

  lemma SameCarry(c: Core, e: Core)
    requires c.p == e.p
    ensures CarryOf(c) == CarryOf(e)
  {
  }

  lemma Carries(p: nat, b: bool)
    ensures 256 * (p * Carry(b)) == (256 * p) * Carry(b)
  {
  }

  /** The complement of every byte. */
  function Complements(ys: seq<byte>): seq<byte> {
    seq(|ys|, i requires 0 <= i < |ys| => Complement(ys[i]))
  }

  lemma {:induction false} ComplementsValue(ys: seq<byte>)
    ensures Value(Complements(ys)) == Power(|ys|) - 1 - Value(ys)
    decreases |ys|
  {
    hide Num, Complement;
    if ys != [] {
      ComplementsValue(ys[1..]);
      ComplementNum(ys[0]);
      assert Complements(ys)[1..] == Complements(ys[1..]);
    }
  }

  /** Subtracting is adding the complements. */
  lemma {:induction false} SubtractsNumbers(c: Core, xs: seq<byte>, ys: seq<byte>)
    requires |xs| == |ys|
    ensures var r := Chained(c, xs, ys, Callback.SBC);
      && |r.result| == |xs|
      && Value(r.result) + Power(|xs|) * Carry(CarryOf(r.core)) == Value(xs) + (Power(|xs|) - 1 - Value(ys)) + Carry(CarryOf(c))
    decreases |xs|
  {
    hide Alu, Num, SumByte, SumCarry, CarryOf, Complement;
    if xs != [] {
      var e := c.(a := xs[0], db := ys[0]);
      var d := Alu(e, Callback.SBC);
      SbcStep(e);
      SameCarry(c, e);
      SumNumbers(xs[0], Complement(ys[0]), CarryOf(c));
      ComplementNum(ys[0]);
      SubtractsNumbers(d, xs[1..], ys[1..]);
      var rest := Chained(d, xs[1..], ys[1..], Callback.SBC);
      assert ([d.a] + rest.result)[1..] == rest.result;
      Carries(Power(|xs| - 1), CarryOf(rest.core));
    }
  }

  lemma {:induction false} ValueBound(s: seq<byte>)
    ensures Value(s) < Power(|s|)
    decreases |s|
  {
    hide Num;
    if s != [] {
      ValueBound(s[1..]);
      NumRange(s[0]);
    }
  }

  /** With the carry set, a subtraction leaves the difference, a turn higher exactly when it had to borrow. */
  lemma Subtraction(c: Core, xs: seq<byte>, ys: seq<byte>)
    requires |xs| == |ys| && CarryOf(c)
    ensures var r := Chained(c, xs, ys, Callback.SBC);
      && (CarryOf(r.core) <==> Value(xs) >= Value(ys))
      && Value(r.result) == Value(xs) - Value(ys) + if CarryOf(r.core) then 0 else Power(|xs|)
  {
    hide Alu, CarryOf, Chained, Value, Power;
    SubtractsNumbers(c, xs, ys);
    ValueBound(Chained(c, xs, ys, Callback.SBC).result);
    ValueBound(xs);
    ValueBound(ys);
  }

  /** With the carry clear, an addition is exact: its carry is the digit above the result. */
  lemma Addition(c: Core, xs: seq<byte>, ys: seq<byte>)
    requires |xs| == |ys| && !CarryOf(c)
    ensures var r := Chained(c, xs, ys, Callback.ADC);
      && (CarryOf(r.core) <==> Value(xs) + Value(ys) >= Power(|xs|))
      && Value(r.result) == Value(xs) + Value(ys) - if CarryOf(r.core) then Power(|xs|) else 0
  {
    hide Alu, CarryOf, Chained, Value, Power;
    AddsNumbers(c, xs, ys);
    ValueBound(Chained(c, xs, ys, Callback.ADC).result);
  }

  // --- overflow of the last step

  /** A low byte does not decide whether a number is at least half of an even range. */
  lemma LowByteUndecided(b: int, w: nat, half: nat)
    requires 0 <= b < 256
    ensures 2 * w >= 2 * half <==> 2 * (b + 256 * w) >= 256 * (2 * half)
  {
  }

  lemma {:induction false} SignSplits(s: seq<byte>)
    requires s != []
    ensures Negative(s) <==> 2 * Value(s) >= Power(|s|)
    decreases |s|
  {
    hide Num, Sign, Value, Power;
    SignNum(s[0]);
    ValueStarts(s);
    PowerStarts(|s|);
    if |s| > 1 {
      SignSplits(s[1..]);
      assert s[1..][|s| - 2] == s[|s| - 1];
      PowerStarts(|s| - 1);
      LowByteUndecided(Num(s[0]), Value(s[1..]), 128 * Power(|s| - 2));
    }
  }

  lemma ValueStarts(s: seq<byte>)
    requires s != []
    ensures Value(s) == Num(s[0]) + 256 * Value(s[1..])
    ensures |s| == 1 ==> Value(s) == Num(s[0])
  {
    hide Num;
  }

  lemma PowerStarts(n: nat)
    requires n > 0
    ensures Power(n) == 256 * Power(n - 1) && (n == 1 ==> Power(n) == 256)
  {
  }

  /** The last addition overflows when the operands agree in sign and the result does not. */
  lemma {:induction false} LastOverflowAdc(c: Core, xs: seq<byte>, ys: seq<byte>)
    requires |xs| == |ys| && xs != []
    ensures var r := Chained(c, xs, ys, Callback.ADC);
      |r.result| == |xs| && (Flag(r.core.p, OVERFLOW) <==> Negative(xs) == Negative(ys) && Negative(xs) != Negative(r.result))
    decreases |xs|
  {
    hide Alu, Num, SumByte, SumCarry, CarryOf, SumOverflow, Flag, Sign;
    var e := c.(a := xs[0], db := ys[0]);
    var d := Alu(e, Callback.ADC);
    AdcStep(e);
    var rest := Chained(d, xs[1..], ys[1..], Callback.ADC);
    if |xs| == 1 {
      SumOverflowSigns(xs[0], ys[0], CarryOf(e));
    } else {
      LastOverflowAdc(d, xs[1..], ys[1..]);
      assert ([d.a] + rest.result)[|xs| - 1] == rest.result[|xs| - 2];
    }
  }

  /** The same of the last subtraction, with the complement of what is subtracted. */
  lemma {:induction false} LastOverflowSbc(c: Core, xs: seq<byte>, ys: seq<byte>)
    requires |xs| == |ys| && xs != []
    ensures var r := Chained(c, xs, ys, Callback.SBC);
      |r.result| == |xs| && (Flag(r.core.p, OVERFLOW)
        <==> Negative(xs) == Negative(Complements(ys)) && Negative(xs) != Negative(r.result))
    decreases |xs|
  {
    hide Alu, Num, SumByte, SumCarry, CarryOf, DifferenceOverflow, Flag, Sign, Complement;
    var e := c.(a := xs[0], db := ys[0]);
    var d := Alu(e, Callback.SBC);
    SbcStep(e);
    var rest := Chained(d, xs[1..], ys[1..], Callback.SBC);
    if |xs| == 1 {
      DifferenceOverflowSigns(xs[0], Complement(ys[0]), CarryOf(e));
      assert rest.core == d && [d.a] + rest.result == [d.a];
    } else {
      LastOverflowSbc(d, xs[1..], ys[1..]);
      assert ([d.a] + rest.result)[|xs| - 1] == rest.result[|xs| - 2];
    }
  }

  /** The number does not fit in `n` bytes of two's complement. */
  predicate OutOfRange(v: int, n: nat) {
    2 * v < 0 - Power(n) || 2 * v >= Power(n)
  }

  /** Overflow after the last step means that the signed sum does not fit. */
  lemma AdditionOverflow(c: Core, xs: seq<byte>, ys: seq<byte>)
    requires |xs| == |ys| && xs != []
    ensures Flag(Chained(c, xs, ys, Callback.ADC).core.p, OVERFLOW)
       <==> OutOfRange(SignedValue(xs) + SignedValue(ys) + Carry(CarryOf(c)), |xs|)
  {
    hide Chained, Value, Negative, Flag, CarryOf;
    var r := Chained(c, xs, ys, Callback.ADC);
    LastOverflowAdc(c, xs, ys);
    AddsNumbers(c, xs, ys);
    SignSplits(xs);
    SignSplits(ys);
    SignSplits(r.result);
    ValueBound(xs);
    ValueBound(ys);
    ValueBound(r.result);
    PowerEven(|xs|);
  }

  lemma PowerEven(n: nat)
    requires n > 0
    ensures Power(n) % 2 == 0 && Power(n) >= 256
  {
    PowerPositive(n - 1);
  }

  /** Overflow after the last step means that the signed difference does not fit. */
  lemma SubtractionOverflow(c: Core, xs: seq<byte>, ys: seq<byte>)
    requires |xs| == |ys| && xs != [] && CarryOf(c)
    ensures Flag(Chained(c, xs, ys, Callback.SBC).core.p, OVERFLOW)
       <==> OutOfRange(SignedValue(xs) - SignedValue(ys), |xs|)
  {
    hide Chained, Value, Negative, Flag, CarryOf, Complements;
    var r := Chained(c, xs, ys, Callback.SBC);
    LastOverflowSbc(c, xs, ys);
    SubtractsNumbers(c, xs, ys);
    var zs := Complements(ys);
    ComplementsValue(ys);
    ComplementsLength(ys);
    SignSplits(xs);
    SignSplits(ys);
    SignSplits(zs);
    SignSplits(r.result);
    ValueBound(xs);
    ValueBound(ys);
    ValueBound(r.result);
    PowerEven(|xs|);
  }

  lemma ComplementsLength(ys: seq<byte>)
    ensures |Complements(ys)| == |ys|
  {
  }

  // --- comparisons

  lemma NumsOrdered(r: byte, m: byte)
    ensures !(r < m) <==> Num(r) >= Num(m)
    ensures r == m <==> Num(r) == Num(m)
  {
    NumOrder(r, m);
    NumOrder(m, r);
    hide Num;
  }

  predicate Compares(cb: Callback) { cb.CMP? || cb.CPX? || cb.CPY? }

  /** The register that a comparison is about. */
  function ComparedRegister(c: Core, cb: Callback): byte
    requires Compares(cb)
  {
    if cb.CMP? then c.a else if cb.CPX? then c.x else c.y
  }

  lemma ComparedFlags(p: byte, r: byte, m: byte)
    ensures var q := Compared(p, r, m);
      (Flag(q, CARRY) <==> !(r < m)) && (Flag(q, ZERO) <==> r == m) && (Flag(q, NEGATIVE) <==> Sign(Minus(r, m)))
  {
  }

  lemma ComparisonIs(c: Core, cb: Callback)
    requires Compares(cb)
    ensures Alu(c, cb) == c.(p := Compared(c.p, ComparedRegister(c, cb), c.db))
  {
    hide Compared, Alu;
    if cb == Callback.CMP {
      CpuCallbacks.CmpIs(c);
    } else if cb == Callback.CPX {
      CpuCallbacks.CpxIs(c);
    } else {
      assert cb == Callback.CPY;
      CpuCallbacks.CpyIs(c);
    }
  }

  /** A comparison orders the register and the operand as numbers, and changes nothing but flags. */
  lemma ComparisonOrders(c: Core, cb: Callback)
    requires Compares(cb)
    ensures var r, d := ComparedRegister(c, cb), Alu(c, cb);
      && (CarryOf(d) <==> Num(r) >= Num(c.db))
      && (Flag(d.p, ZERO) <==> Num(r) == Num(c.db))
      && (Flag(d.p, NEGATIVE) <==> Sign(Minus(r, c.db)))
      && d == c.(p := d.p)
  {
    hide Num, Compared, Flag, Sign, Minus, Alu, ComparedRegister;
    var r := ComparedRegister(c, cb);
    ComparedFlags(c.p, r, c.db);
    NumsOrdered(r, c.db);
    ComparisonIs(c, cb);
  }

  /** A CMP of the lowest bytes and SBC on the rest, as programs compare numbers of many bytes. */
  function ChainCompared(c: Core, xs: seq<byte>, ys: seq<byte>): Core
    requires |xs| == |ys| && xs != []
  {
    hide Alu;
    Chained(Alu(c.(a := xs[0], db := ys[0]), Callback.CMP), xs[1..], ys[1..], Callback.SBC).core
  }

  /** The carry behind it orders the numbers, whatever it was before. */
  lemma ComparisonChain(c: Core, xs: seq<byte>, ys: seq<byte>)
    requires |xs| == |ys| && xs != []
    ensures CarryOf(ChainCompared(c, xs, ys)) <==> Value(xs) >= Value(ys)
  {
    hide Alu, Num, CarryOf, Value, Chained;
    var d := Alu(c.(a := xs[0], db := ys[0]), Callback.CMP);
    ComparisonOrders(c.(a := xs[0], db := ys[0]), Callback.CMP);
    SubtractsNumbers(d, xs[1..], ys[1..]);
    ValueBound(Chained(d, xs[1..], ys[1..], Callback.SBC).result);
    ValueBound(xs[1..]);
    ValueBound(ys[1..]);
    ValueStarts(xs);
    ValueStarts(ys);
    NumRange(xs[0]);
    NumRange(ys[0]);
  }

  // --- shifts

  lemma LeftIsSum(d: byte, carry: bool)
    ensures RotateLeft(d, carry) == Shifted(SumByte(d, d, carry), SumCarry(d, d, carry))
    ensures ShiftLeft(d) == RotateLeft(d, false)
  {
  }

  lemma RightUndoesLeft(d: byte, carry: bool)
    ensures var s := RotateRight(d, carry); RotateLeft(s.result, s.carry) == Shifted(d, carry)
    ensures ShiftRight(d) == RotateRight(d, false)
  {
  }

  lemma LeftNumbers(d: byte, carry: bool)
    ensures var s := RotateLeft(d, carry); Num(s.result) + 256 * Carry(s.carry) == 2 * Num(d) + Carry(carry)
  {
    hide Num, RotateLeft, ShiftLeft, SumByte, SumCarry;
    LeftIsSum(d, carry);
    SumNumbers(d, d, carry);
  }

  lemma RightNumbers(d: byte, carry: bool)
    ensures var s := RotateRight(d, carry); 2 * Num(s.result) + Carry(s.carry) == Num(d) + 256 * Carry(carry)
  {
    hide Num, RotateLeft, RotateRight, ShiftRight;
    RightUndoesLeft(d, carry);
    var s := RotateRight(d, carry);
    LeftNumbers(s.result, s.carry);
  }

  lemma ShiftCarry(p: byte, s: Shifted)
    ensures Flag(ShiftFlags(p, s), CARRY) <==> s.carry
  {
  }

  /** The registers with `v` as the operand of a shift. */
  function WithOperand(c: Core, v: byte): Core {
    if c.op.AccumulatorOrImplied? then c.(a := v) else c.(db := v)
  }

  lemma GivenOperand(c: Core, v: byte)
    ensures var e := WithOperand(c, v); ShiftOperand(e) == v && CarryOf(e) == CarryOf(c) && e.op == c.op
  {
    hide Flag;
  }

  /** A shift puts its result where its operand was. */
  lemma ShiftLeaves(c: Core, cb: Callback)
    requires IsShift(cb)
    ensures var d, s := Alu(c, cb), ShiftOf(c, cb); ShiftOperand(d) == s.result && (CarryOf(d) <==> s.carry) && d.op == c.op
  {
    hide Flag, ShiftFlags, ShiftOf, IsShift, AluA, AluX, AluY, AluSp, AluP, AluDb, AluHi;
    ShiftCarry(c.p, ShiftOf(c, cb));
    CpuCallbacks.ShiftResult(c, cb);
    CpuCallbacks.ShiftStatus(c, cb);
  }

  lemma ShiftStep(c: Core, v: byte, cb: Callback)
    requires IsShift(cb)
    ensures var e := WithOperand(c, v);
      var d := Alu(e, cb);
      && ShiftOperand(e) == v && CarryOf(e) == CarryOf(c)
      && ShiftOperand(d) == ShiftOf(e, cb).result && (CarryOf(d) <==> ShiftOf(e, cb).carry)
  {
    hide CarryOf, ShiftOf, Alu, IsShift, WithOperand, ShiftOperand;
    GivenOperand(c, v);
    ShiftLeaves(WithOperand(c, v), cb);
  }

  /** `first` on the lowest byte and ROL on the others, upwards. */
  function ShiftedUp(c: Core, xs: seq<byte>, first: Callback): Chain
    decreases |xs|
  {
    hide Alu;
    if xs == [] then Chain(c, [])
    else
      var d := Alu(WithOperand(c, xs[0]), first);
      var rest := ShiftedUp(d, xs[1..], Callback.ROL);
      Chain(rest.core, [ShiftOperand(d)] + rest.result)
  }

  /** `first` on the highest byte and ROR on the others, downwards. */
  function ShiftedDown(c: Core, xs: seq<byte>, first: Callback): Chain
    decreases |xs|
  {
    hide Alu;
    if xs == [] then Chain(c, [])
    else
      var d := Alu(WithOperand(c, xs[|xs| - 1]), first);
      var rest := ShiftedDown(d, xs[..|xs| - 1], Callback.ROR);
      Chain(rest.core, rest.result + [ShiftOperand(d)])
  }

  /** The carry that a shift takes in: ASL and LSR take none. */
  function CarryIn(c: Core, cb: Callback): nat {
    if cb.ROL? || cb.ROR? then Carry(CarryOf(c)) else 0
  }

  lemma ShiftsLeft(c: Core, v: byte, cb: Callback)
    requires cb.ASL? || cb.ROL?
    ensures var d := Alu(WithOperand(c, v), cb);
      Num(ShiftOperand(d)) + 256 * Carry(CarryOf(d)) == 2 * Num(v) + CarryIn(c, cb)
  {
    hide Num, CarryOf, Alu, RotateLeft, ShiftLeft, WithOperand, ShiftOperand;
    ShiftStep(c, v, cb);
    LeftIsSum(v, false);
    LeftNumbers(v, if cb.ROL? then CarryOf(c) else false);
  }

  lemma ShiftsRight(c: Core, v: byte, cb: Callback)
    requires cb.LSR? || cb.ROR?
    ensures var d := Alu(WithOperand(c, v), cb);
      2 * Num(ShiftOperand(d)) + Carry(CarryOf(d)) == Num(v) + 256 * CarryIn(c, cb)
  {
    hide Num, CarryOf, Alu, RotateRight, ShiftRight, WithOperand, ShiftOperand;
    ShiftStep(c, v, cb);
    RightUndoesLeft(v, false);
    RightNumbers(v, if cb.ROR? then CarryOf(c) else false);
  }

  /** Shifting a number of any length up doubles it; the carry out is its digit of the next order. */
  lemma {:induction false} Doubles(c: Core, xs: seq<byte>, first: Callback)
    requires (first.ASL? || first.ROL?) && xs != []
    ensures var r := ShiftedUp(c, xs, first);
      && |r.result| == |xs|
      && Value(r.result) + Power(|xs|) * Carry(CarryOf(r.core)) == 2 * Value(xs) + CarryIn(c, first)
    decreases |xs|
  {
    hide Alu, Num, CarryOf, ShiftOperand, WithOperand, Value, Power;
    ShiftsLeft(c, xs[0], first);
    ValueStarts(xs);
    PowerStarts(|xs|);
    var d := Alu(WithOperand(c, xs[0]), first);
    var rest := ShiftedUp(d, xs[1..], Callback.ROL);
    var result := [ShiftOperand(d)] + rest.result;
    assert result[1..] == rest.result;
    ValueStarts(result);
    if |xs| > 1 {
      Doubles(d, xs[1..], Callback.ROL);
      Carries(Power(|xs| - 1), CarryOf(rest.core));
    }
  }

  lemma {:induction false} ValueEnds(s: seq<byte>, b: byte)
    ensures Value(s + [b]) == Value(s) + Power(|s|) * Num(b)
    decreases |s|
  {
    hide Num;
    if s == [] {
      assert s + [b] == [b];
    } else {
      ValueEnds(s[1..], b);
      assert (s + [b])[1..] == s[1..] + [b];
      Order(Power(|s| - 1), Num(b));
    }
  }

  lemma Order(p: nat, n: nat)
    ensures 256 * (p * n) == (256 * p) * n
  {
  }

  /** Shifting a number of any length down halves it; the carry out is the remainder. */
  lemma {:induction false} Halves(c: Core, xs: seq<byte>, first: Callback)
    requires (first.LSR? || first.ROR?) && xs != []
    ensures var r := ShiftedDown(c, xs, first);
      && |r.result| == |xs|
      && 2 * Value(r.result) + Carry(CarryOf(r.core)) == Value(xs) + Power(|xs|) * CarryIn(c, first)
    decreases |xs|
  {
    hide Alu, Num, CarryOf, ShiftOperand, WithOperand, Value, Power;
    var n := |xs| - 1;
    ShiftsRight(c, xs[n], first);
    var d := Alu(WithOperand(c, xs[n]), first);
    var rest := ShiftedDown(d, xs[..n], Callback.ROR);
    assert xs[..n] + [xs[n]] == xs;
    ValueEnds(xs[..n], xs[n]);
    PowerStarts(|xs|);
    if n > 0 {
      Halves(d, xs[..n], Callback.ROR);
    } else {
      assert xs[..n] == [];
      NoBytes();
    }
    ValueEnds(rest.result, ShiftOperand(d));
    Halved(Power(n), Num(xs[n]), Num(ShiftOperand(d)), Carry(CarryOf(d)), CarryIn(c, first));
  }

  lemma NoBytes()
    ensures Value([]) == 0 && Power(0) == 1
  {
  }

  /** The top digit of a number that is halved. */
  lemma Halved(p: nat, v: nat, r: nat, out: nat, carry: nat)
    requires 2 * r + out == v + 256 * carry
    ensures 2 * (p * r) + p * out == p * v + (256 * p) * carry
  {
    assert p * (2 * r + out) == p * (v + 256 * carry);
  }

  lemma {:induction false} SameValue(s: seq<byte>, t: seq<byte>)
    requires |s| == |t| && Value(s) == Value(t)
    ensures s == t
    decreases |s|
  {
    hide Num;
    if s != [] {
      NumRange(s[0]);
      NumRange(t[0]);
      SameValue(s[1..], t[1..]);
      NumOrder(s[0], t[0]);
      NumOrder(t[0], s[0]);
      assert s == [s[0]] + s[1..] && t == [t[0]] + t[1..];
    }
  }

  /** Shifting a number up and then down, the carry kept, restores it and the carry. */
  lemma ShiftsCancel(c: Core, xs: seq<byte>)
    requires xs != []
    ensures var up := ShiftedUp(c, xs, Callback.ROL);
      var down := ShiftedDown(up.core, up.result, Callback.ROR);
      down.result == xs && CarryOf(down.core) == CarryOf(c)
  {
    hide CarryOf, Value, Power, ShiftedUp, ShiftedDown;
    var up := ShiftedUp(c, xs, Callback.ROL);
    var down := ShiftedDown(up.core, up.result, Callback.ROR);
    Doubles(c, xs, Callback.ROL);
    Halves(up.core, up.result, Callback.ROR);
    SameValue(down.result, xs);
  }
}
