/** The CPU as an object that is stepped in place, proved against the machine on values. */
module CpuObject {
  import opened Bits
  import opened CpuTypes
  import opened CpuAlu
  import opened CpuCallbacks
  import opened CpuExec
  import opened CpuFlow
  import opened CpuMachine
  import opened CpuSafety
  import opened Opcodes
  import opened OpQueues

  /** The bus, which keeps the accesses made so far. */
  class CpuBus {
    const device: Device
    var log: seq<Access>

    constructor (device: Device)
      ensures this.device == device && log == []
    {
      this.device := device;
      log := [];
    }

    method Read(addr: word) returns (value: byte)
      modifies `log
      ensures value == device(old(log), addr) && log == old(log) + [Loaded(addr, value)]
    {
      value := device(log, addr);
      log := log + [Loaded(addr, value)];
    }

    method Write(addr: word, data: byte)
      modifies `log
      ensures log == old(log) + [Stored(addr, data)]
    {
      log := log + [Stored(addr, data)];
    }
  }

  /** What a micro-operation leaves alone, but for the interrupt state its callback changes. */
  datatype Control = Control(cur: MicroOp, dma: Dma, nmi: Nmi, irq: Irq)

  predicate IsTransfer(cb: Callback) {
    cb.TAX? || cb.TAY? || cb.TXA? || cb.TYA? || cb.TSX? || cb.TXS?
  }

  predicate IsStep(cb: Callback) {
    cb.DEX? || cb.DEY? || cb.INX? || cb.INY? || cb.DEC? || cb.INC?
  }

  predicate IsLogic(cb: Callback) {
    cb.AND? || cb.EOR? || cb.ORA? || cb.BIT? || cb.LAX? || cb.LXA? || cb.ANE? || cb.LAS? || cb.SAX?
  }

  predicate IsSum(cb: Callback) {
    cb.ADC? || cb.SBC? || cb.CMP? || cb.CPX? || cb.CPY? || cb.SBX? || cb.DCP? || cb.ISB?
  }

  predicate IsCombined(cb: Callback) {
    cb.SLO? || cb.RLA? || cb.SRE? || cb.RRA? || cb.ALR? || cb.ANC? || cb.ARR?
  }

  predicate IsUnstable(cb: Callback) {
    cb.SHX? || cb.SHY? || cb.JAM? || cb.ShaRdyCheck?
  }

  lemma EveryCallback(cb: Callback)
    requires Touches(cb) && !cb.BRANCH?
    ensures IsTransfer(cb) || IsFlagCallback(cb) || IsStep(cb) || IsLogic(cb) || IsSum(cb) || IsShift(cb) || IsCombined(cb)
      || IsUnstable(cb)
  {
  }

  lemma NZAgain(p: byte, carry: bool, r: byte)
    ensures WithNZ(WithNZ(WithFlag(p, CARRY, carry), r), r) == WithNZ(WithFlag(p, CARRY, carry), r)
  {
  }

  class Cpu {
    const bus: CpuBus
    var programCounter: word
    var stackPointer: byte
    var accumulator: byte
    var xRegister: byte
    var yRegister: byte
    var processorStatus: byte
    var lo: byte
    var hi: byte
    var dataBus: byte
    var currentOpcode: OpType
    var rdy: bool
    var page: byte
    var isHalted: bool
    var shaRdyLow: bool
    var currentOp: MicroOp
    var opQueue: OpQueue
    var remainingDmaCycles: nat
    var readCycle: bool
    var nmiDetected: bool
    var nmiPending: bool
    var prevNmi: bool
    var irqDetected: bool
    var irqPending: bool
    var isInIrq: bool
    var currentIrqVec: word
    var lockedIrqVec: word

    function Regs(): Core
      reads `programCounter, `stackPointer, `accumulator, `xRegister, `yRegister, `processorStatus, `lo, `hi, `dataBus,
            `currentOpcode, `rdy, `page, `isHalted, `shaRdyLow, bus`log
    {
      Core(programCounter, stackPointer, accumulator, xRegister, yRegister, processorStatus, lo, hi, dataBus, currentOpcode,
           rdy, page, isHalted, shaRdyLow, bus.log)
    }

    function Rest(): Control
      reads `currentOp, `remainingDmaCycles, `readCycle, `nmiDetected, `nmiPending, `prevNmi, `irqDetected, `irqPending,
            `isInIrq, `currentIrqVec, `lockedIrqVec
    {
      Control(currentOp, Dma(remainingDmaCycles, readCycle), Nmi(nmiDetected, nmiPending, prevNmi),
              Irq(irqDetected, irqPending, isInIrq, currentIrqVec, lockedIrqVec))
    }

    function View(): Machine
      requires opQueue.Valid()
      reads this, bus, opQueue, opQueue.data
    {
      var r := Rest();
      Machine(Regs(), r.cur, opQueue.Contents(), r.dma, r.nmi, r.irq)
    }

    constructor (device: Device)
      ensures opQueue.Valid() && fresh(bus) && fresh(opQueue) && fresh(opQueue.data)
      ensures bus.device == device && View() == PowerOn()
    {
      hide Decode;
      programCounter, stackPointer, accumulator, xRegister, yRegister, processorStatus := 0, 0, 0, 0, 0, 0x04;
      lo, hi, dataBus, currentOpcode := 0, 0, 0, Decode(0);
      rdy, page, isHalted, shaRdyLow := false, 0, false, false;
      currentOp := FetchOpcode;
      remainingDmaCycles, readCycle := 0, true;
      nmiDetected, nmiPending, prevNmi := false, false, false;
      irqDetected, irqPending, isInIrq, currentIrqVec, lockedIrqVec := false, false, false, IRQ_VECTOR, 0;
      bus := new CpuBus(device);
      opQueue := new OpQueue();
    }

    // --- the status register

    method SetFlag(mask: byte, on: bool)
      modifies `processorStatus
      ensures processorStatus == WithFlag(old(processorStatus), mask, on)
    {
      if on {
        processorStatus := processorStatus | mask;
      } else {
        processorStatus := processorStatus & !mask;
      }
    }

    method UpdateNegativeAndZeroFlags(result: byte)
      modifies `processorStatus
      ensures processorStatus == WithNZ(old(processorStatus), result)
    {
      hide WithFlag;
      SetFlag(NEGATIVE, Flag(result, NEGATIVE));
      SetFlag(ZERO, result == 0);
    }

    method ShiftLeft(data: byte) returns (res: byte)
      modifies `processorStatus
      ensures res == CpuAlu.ShiftLeft(data).result && processorStatus == ShiftFlags(old(processorStatus), CpuAlu.ShiftLeft(data))
    {
      hide WithFlag, WithNZ, Flag;
      res := data << 1;
      SetFlag(CARRY, Flag(data, NEGATIVE));
      UpdateNegativeAndZeroFlags(res);
    }

    method ShiftRight(data: byte) returns (res: byte)
      modifies `processorStatus
      ensures res == CpuAlu.ShiftRight(data).result && processorStatus == ShiftFlags(old(processorStatus), CpuAlu.ShiftRight(data))
    {
      hide WithFlag, WithNZ, Flag;
      res := data >> 1;
      SetFlag(CARRY, Flag(data, CARRY));
      UpdateNegativeAndZeroFlags(res);
    }

    method RotateLeft(data: byte) returns (res: byte)
      modifies `processorStatus
      ensures var s := CpuAlu.RotateLeft(data, Flag(old(processorStatus), CARRY));
        res == s.result && processorStatus == ShiftFlags(old(processorStatus), s)
    {
      hide WithFlag, WithNZ, Flag;
      res := (data << 1) | (if Flag(processorStatus, CARRY) then 1 else 0);
      SetFlag(CARRY, Flag(data, NEGATIVE));
      UpdateNegativeAndZeroFlags(res);
    }

    method RotateRight(data: byte) returns (res: byte)
      modifies `processorStatus
      ensures var s := CpuAlu.RotateRight(data, Flag(old(processorStatus), CARRY));
        res == s.result && processorStatus == ShiftFlags(old(processorStatus), s)
    {
      hide WithFlag, WithNZ, Flag;
      res := (data >> 1) | (if Flag(processorStatus, CARRY) then 0x80 else 0);
      SetFlag(CARRY, Flag(data, CARRY));
      UpdateNegativeAndZeroFlags(res);
    }

    method AddWithCarry(value: byte)
      modifies `accumulator, `processorStatus
      ensures accumulator == SumByte(old(accumulator), value, Flag(old(processorStatus), CARRY))
      ensures processorStatus == SumFlags(old(processorStatus), old(accumulator), value)
    {
      hide WithFlag, WithNZ, Flag, SumByte, SumCarry, SumOverflow;
      var carryIn := Flag(processorStatus, CARRY);
      var accCheck := accumulator;
      accumulator := SumByte(accCheck, value, carryIn);
      SetFlag(CARRY, SumCarry(accCheck, value, carryIn));
      SetFlag(OVERFLOW, SumOverflow(accCheck, value, carryIn));
      UpdateNegativeAndZeroFlags(accumulator);
    }

    /** A subtraction, of the value whose complement is `value`. */
    method Subtract(value: byte)
      modifies `accumulator, `processorStatus
      ensures accumulator == SumByte(old(accumulator), value, Flag(old(processorStatus), CARRY))
      ensures processorStatus == DifferenceFlags(old(processorStatus), old(accumulator), value)
    {
      hide WithFlag, WithNZ, Flag, SumByte, SumCarry, DifferenceOverflow;
      var carryIn := Flag(processorStatus, CARRY);
      var accCheck := accumulator;
      accumulator := SumByte(accCheck, value, carryIn);
      SetFlag(CARRY, SumCarry(accCheck, value, carryIn));
      SetFlag(OVERFLOW, DifferenceOverflow(accCheck, value, carryIn));
      UpdateNegativeAndZeroFlags(accumulator);
    }

    method Compare(register: byte, value: byte)
      modifies `processorStatus
      ensures processorStatus == Compared(old(processorStatus), register, value)
    {
      hide WithFlag, Flag, Less, Minus;
      SetFlag(ZERO, value == register);
      SetFlag(CARRY, !Less(register, value));
      SetFlag(NEGATIVE, Flag(Minus(register, value), NEGATIVE));
    }

    // --- callbacks

    method Tax()
      modifies `xRegister, `processorStatus
      ensures Regs() == Alu(old(Regs()), Callback.TAX)
    {
      hide Alu, WithNZ;
      TaxIs(Regs());
      xRegister := accumulator;
      UpdateNegativeAndZeroFlags(xRegister);
    }

    method Tay()
      modifies `yRegister, `processorStatus
      ensures Regs() == Alu(old(Regs()), Callback.TAY)
    {
      hide Alu, WithNZ;
      TayIs(Regs());
      yRegister := accumulator;
      UpdateNegativeAndZeroFlags(yRegister);
    }

    method Txa()
      modifies `accumulator, `processorStatus
      ensures Regs() == Alu(old(Regs()), Callback.TXA)
    {
      hide Alu, WithNZ;
      TxaIs(Regs());
      accumulator := xRegister;
      UpdateNegativeAndZeroFlags(accumulator);
    }

    method Tya()
      modifies `accumulator, `processorStatus
      ensures Regs() == Alu(old(Regs()), Callback.TYA)
    {
      hide Alu, WithNZ;
      TyaIs(Regs());
      accumulator := yRegister;
      UpdateNegativeAndZeroFlags(accumulator);
    }

    method Tsx()
      modifies `xRegister, `processorStatus
      ensures Regs() == Alu(old(Regs()), Callback.TSX)
    {
      hide Alu, WithNZ;
      TsxIs(Regs());
      xRegister := stackPointer;
      UpdateNegativeAndZeroFlags(xRegister);
    }

    method Txs()
      modifies `stackPointer
      ensures Regs() == Alu(old(Regs()), Callback.TXS)
    {
      hide Alu;
      TxsIs(Regs());
      stackPointer := xRegister;
    }

    method Dex()
      modifies `xRegister, `processorStatus
      ensures Regs() == Alu(old(Regs()), Callback.DEX)
    {
      hide Alu, WithNZ;
      DexIs(Regs());
      xRegister := xRegister - 1;
      UpdateNegativeAndZeroFlags(xRegister);
    }

    method Dey()
      modifies `yRegister, `processorStatus
      ensures Regs() == Alu(old(Regs()), Callback.DEY)
    {
      hide Alu, WithNZ;
      DeyIs(Regs());
      yRegister := yRegister - 1;
      UpdateNegativeAndZeroFlags(yRegister);
    }

    method Inx()
      modifies `xRegister, `processorStatus
      ensures Regs() == Alu(old(Regs()), Callback.INX)
    {
      hide Alu, WithNZ;
      InxIs(Regs());
      xRegister := xRegister + 1;
      UpdateNegativeAndZeroFlags(xRegister);
    }

    method Iny()
      modifies `yRegister, `processorStatus
      ensures Regs() == Alu(old(Regs()), Callback.INY)
    {
      hide Alu, WithNZ;
      InyIs(Regs());
      yRegister := yRegister + 1;
      UpdateNegativeAndZeroFlags(yRegister);
    }

    method Dec()
      modifies `dataBus, `processorStatus
      ensures Regs() == Alu(old(Regs()), Callback.DEC)
    {
      hide Alu, WithNZ;
      DecIs(Regs());
      dataBus := dataBus - 1;
      UpdateNegativeAndZeroFlags(dataBus);
    }

    method Inc()
      modifies `dataBus, `processorStatus
      ensures Regs() == Alu(old(Regs()), Callback.INC)
    {
      hide Alu, WithNZ;
      IncIs(Regs());
      dataBus := dataBus + 1;
      UpdateNegativeAndZeroFlags(dataBus);
    }

    method And()
      modifies `accumulator, `processorStatus
      ensures Regs() == Alu(old(Regs()), Callback.AND)
    {
      hide Alu, WithNZ, Bits.And;
      AndIs(Regs());
      accumulator := Bits.And(accumulator, dataBus);
      UpdateNegativeAndZeroFlags(accumulator);
    }

    method Eor()
      modifies `accumulator, `processorStatus
      ensures Regs() == Alu(old(Regs()), Callback.EOR)
    {
      hide Alu, WithNZ, Xor;
      EorIs(Regs());
      accumulator := Xor(accumulator, dataBus);
      UpdateNegativeAndZeroFlags(accumulator);
    }

    method Ora()
      modifies `accumulator, `processorStatus
      ensures Regs() == Alu(old(Regs()), Callback.ORA)
    {
      hide Alu, WithNZ, Or;
      OraIs(Regs());
      accumulator := Or(accumulator, dataBus);
      UpdateNegativeAndZeroFlags(accumulator);
    }

    method Bit()
      modifies `processorStatus
      ensures Regs() == Alu(old(Regs()), Callback.BIT)
    {
      hide Alu, WithFlag, Flag, Bits.And;
      BitIs(Regs());
      SetFlag(ZERO, Bits.And(accumulator, dataBus) == 0);
      SetFlag(NEGATIVE, Flag(dataBus, NEGATIVE));
      SetFlag(OVERFLOW, Flag(dataBus, OVERFLOW));
    }

    method Lax()
      modifies `accumulator, `xRegister, `processorStatus
      ensures Regs() == Alu(old(Regs()), Callback.LAX)
    {
      hide Alu, WithNZ;
      LaxIs(Regs());
      accumulator := dataBus;
      xRegister := dataBus;
      UpdateNegativeAndZeroFlags(accumulator);
    }

    method Lxa()
      modifies `accumulator, `xRegister, `processorStatus
      ensures Regs() == Alu(old(Regs()), Callback.LXA)
    {
      hide Alu, WithNZ, Bits.And, Or;
      LxaIs(Regs());
      accumulator := Bits.And(Or(accumulator, ANE_CONSTANT), dataBus);
      xRegister := accumulator;
      UpdateNegativeAndZeroFlags(accumulator);
    }

    method Ane()
      modifies `accumulator
      ensures Regs() == Alu(old(Regs()), Callback.ANE)
    {
      hide Alu, Bits.And, Or;
      AneIs(Regs());
      accumulator := Bits.And(Bits.And(Or(accumulator, ANE_CONSTANT), xRegister), dataBus);
    }

    method Las()
      modifies `accumulator, `xRegister, `stackPointer, `processorStatus
      ensures Regs() == Alu(old(Regs()), Callback.LAS)
    {
      hide Alu, WithNZ, Bits.And;
      LasIs(Regs());
      var res := Bits.And(dataBus, stackPointer);
      accumulator := res;
      xRegister := res;
      stackPointer := res;
      UpdateNegativeAndZeroFlags(accumulator);
    }

    method Sax()
      modifies `dataBus
      ensures Regs() == Alu(old(Regs()), Callback.SAX)
    {
      hide Alu, Bits.And;
      SaxIs(Regs());
      dataBus := Bits.And(accumulator, xRegister);
    }

    method Cmp()
      modifies `processorStatus
      ensures Regs() == Alu(old(Regs()), Callback.CMP)
    {
      hide Alu, Compared;
      CmpIs(Regs());
      Compare(accumulator, dataBus);
    }

    method Cpx()
      modifies `processorStatus
      ensures Regs() == Alu(old(Regs()), Callback.CPX)
    {
      hide Alu, Compared;
      CpxIs(Regs());
      Compare(xRegister, dataBus);
    }

    method Cpy()
      modifies `processorStatus
      ensures Regs() == Alu(old(Regs()), Callback.CPY)
    {
      hide Alu, Compared;
      CpyIs(Regs());
      Compare(yRegister, dataBus);
    }

    method Sbx()
      modifies `xRegister, `processorStatus
      ensures Regs() == Alu(old(Regs()), Callback.SBX)
    {
      hide Alu, Compared, Bits.And, Minus;
      SbxIs(Regs());
      var t := Bits.And(accumulator, xRegister);
      xRegister := Minus(t, dataBus);
      Compare(t, dataBus);
    }

    method Dcp()
      modifies `dataBus, `processorStatus
      ensures Regs() == Alu(old(Regs()), Callback.DCP)
    {
      hide Alu, Compared, WithNZ, Bits.Dec;
      DcpIs(Regs());
      dataBus := Bits.Dec(dataBus);
      UpdateNegativeAndZeroFlags(dataBus);
      Compare(accumulator, dataBus);
    }

    method Isb()
      modifies `accumulator, `dataBus, `processorStatus
      ensures Regs() == Alu(old(Regs()), Callback.ISB)
    {
      hide Alu, WithNZ, Flag, Bits.Inc, Complement, SumByte, DifferenceFlags;
      IsbIs(Regs());
      SameCarryBit(processorStatus, Bits.Inc(dataBus));
      dataBus := Bits.Inc(dataBus);
      UpdateNegativeAndZeroFlags(dataBus);
      Subtract(Complement(dataBus));
    }

    method Slo()
      modifies `accumulator, `dataBus, `processorStatus
      ensures Regs() == Alu(old(Regs()), Callback.SLO)
    {
      hide Alu, ShiftFlags, WithNZ, Or, CpuAlu.ShiftLeft;
      SloIs(Regs());
      dataBus := ShiftLeft(dataBus);
      accumulator := Or(accumulator, dataBus);
      UpdateNegativeAndZeroFlags(accumulator);
    }

    method Rla()
      modifies `accumulator, `dataBus, `processorStatus
      ensures Regs() == Alu(old(Regs()), Callback.RLA)
    {
      hide Alu, ShiftFlags, WithNZ, Bits.And, Flag, CpuAlu.RotateLeft;
      RlaIs(Regs());
      dataBus := RotateLeft(dataBus);
      accumulator := Bits.And(accumulator, dataBus);
      UpdateNegativeAndZeroFlags(accumulator);
    }

    method Sre()
      modifies `accumulator, `dataBus, `processorStatus
      ensures Regs() == Alu(old(Regs()), Callback.SRE)
    {
      hide Alu, ShiftFlags, WithNZ, Xor, CpuAlu.ShiftRight;
      SreIs(Regs());
      dataBus := ShiftRight(dataBus);
      accumulator := Xor(accumulator, dataBus);
      UpdateNegativeAndZeroFlags(accumulator);
    }

    method Rra()
      modifies `accumulator, `dataBus, `processorStatus
      ensures Regs() == Alu(old(Regs()), Callback.RRA)
    {
      hide Alu, ShiftFlags, SumByte, SumFlags, Flag, CpuAlu.RotateRight;
      RraIs(Regs());
      ShiftedCarry(processorStatus, CpuAlu.RotateRight(dataBus, Flag(processorStatus, CARRY)));
      dataBus := RotateRight(dataBus);
      AddWithCarry(dataBus);
    }

    method Alr()
      modifies `accumulator, `processorStatus
      ensures Regs() == Alu(old(Regs()), Callback.ALR)
    {
      hide Alu, ShiftFlags, WithNZ, Bits.And, CpuAlu.ShiftRight;
      AlrIs(Regs());
      accumulator := Bits.And(accumulator, dataBus);
      UpdateNegativeAndZeroFlags(accumulator);
      ShiftedTwice(processorStatus, CpuAlu.ShiftRight(accumulator));
      accumulator := ShiftRight(accumulator);
      UpdateNegativeAndZeroFlags(accumulator);
    }

    method Anc()
      modifies `accumulator, `processorStatus
      ensures Regs() == Alu(old(Regs()), Callback.ANC)
    {
      hide Alu, WithFlag, Flag, WithNZ, Bits.And;
      AncIs(Regs());
      accumulator := Bits.And(accumulator, dataBus);
      UpdateNegativeAndZeroFlags(accumulator);
      SetFlag(CARRY, Flag(accumulator, NEGATIVE));
    }

    method Arr()
      modifies `accumulator, `processorStatus
      ensures Regs() == Alu(old(Regs()), Callback.ARR)
    {
      hide Alu, WithFlag, Flag, WithNZ, Bits.And, CpuAlu.RotateRight;
      ArrIs(Regs());
      accumulator := CpuAlu.RotateRight(Bits.And(accumulator, dataBus), Flag(processorStatus, CARRY)).result;
      UpdateNegativeAndZeroFlags(accumulator);
      SetFlag(CARRY, Flag(accumulator, 0x40));
      SetFlag(OVERFLOW, Flag(accumulator, 0x40) != Flag(accumulator, 0x20));
    }

    method Shx()
      modifies `hi, `dataBus
      ensures Regs() == Alu(old(Regs()), Callback.SHX)
    {
      hide Alu, Bits.And, Less, Bits.Inc;
      ShxIs(Regs());
      if Less(lo, yRegister) {
        hi := Bits.And(xRegister, hi);
        dataBus := hi;
      } else {
        dataBus := Bits.And(xRegister, Bits.Inc(hi));
      }
    }

    method Shy()
      modifies `hi, `dataBus
      ensures Regs() == Alu(old(Regs()), Callback.SHY)
    {
      hide Alu, Bits.And, Less, Bits.Inc;
      ShyIs(Regs());
      if Less(lo, xRegister) {
        hi := Bits.And(yRegister, hi);
        dataBus := hi;
      } else {
        dataBus := Bits.And(yRegister, Bits.Inc(hi));
      }
    }

    method Jam()
      modifies `isHalted
      ensures Regs() == Alu(old(Regs()), Callback.JAM)
    {
      hide Alu;
      JamIs(Regs());
      isHalted := true;
    }

    method Adc()
      modifies `accumulator, `processorStatus
      ensures Regs() == Alu(old(Regs()), Callback.ADC)
    {
      hide Alu, SumByte, SumFlags, Flag;
      AdcIs(Regs());
      AddWithCarry(dataBus);
    }

    method Sbc()
      modifies `accumulator, `processorStatus
      ensures Regs() == Alu(old(Regs()), Callback.SBC)
    {
      hide Alu, SumByte, DifferenceFlags, Flag, Complement;
      SbcIs(Regs());
      Subtract(Complement(dataBus));
    }

    /** A plain shift works in place on the accumulator or on the data latch. */
    method RunShift(cb: Callback)
      requires IsShift(cb)
      modifies `accumulator, `dataBus, `processorStatus
      ensures Regs() == Alu(old(Regs()), cb)
    {
      hide Alu, Regs, IsShift;
      assert Regs().op == currentOpcode by { OpcodeRegister(); }
      if currentOpcode.AccumulatorOrImplied? {
        RunAccumulatorShift(cb);
      } else {
        RunLatchShift(cb);
      }
    }

    lemma OpcodeRegister()
      ensures Regs().op == currentOpcode
    {
    }

    method RunAccumulatorShift(cb: Callback)
      requires IsShift(cb) && currentOpcode.AccumulatorOrImplied?
      modifies `accumulator, `processorStatus
      ensures Regs() == Alu(old(Regs()), cb)
    {
      hide Alu, ShiftFlags, WithNZ, ShiftOf, IsShift;
      ghost var s := ShiftOf(Regs(), cb);
      AccumulatorShiftIs(Regs(), cb);
      ShiftedTwice(processorStatus, s);
      accumulator := Shift(cb, accumulator);
      UpdateNegativeAndZeroFlags(accumulator);
    }

    method RunLatchShift(cb: Callback)
      requires IsShift(cb) && !currentOpcode.AccumulatorOrImplied?
      modifies `dataBus, `processorStatus
      ensures Regs() == Alu(old(Regs()), cb)
    {
      hide Alu, ShiftFlags, ShiftOf, IsShift;
      LatchShiftIs(Regs(), cb);
      dataBus := Shift(cb, dataBus);
    }

    method Shift(cb: Callback, data: byte) returns (res: byte)
      requires IsShift(cb) && data == ShiftOperand(Regs())
      modifies `processorStatus
      ensures var s := ShiftOf(old(Regs()), cb);
        res == s.result && processorStatus == ShiftFlags(old(processorStatus), s)
    {
      hide ShiftFlags, CpuAlu.ShiftLeft, CpuAlu.ShiftRight, CpuAlu.RotateLeft, CpuAlu.RotateRight, Flag;
      match cb {
        case ASL => res := ShiftLeft(data);
        case LSR => res := ShiftRight(data);
        case ROL => res := RotateLeft(data);
        case ROR => res := RotateRight(data);
      }
    }

    method RunFlag(cb: Callback)
      requires IsFlagCallback(cb)
      modifies `processorStatus
      ensures Regs() == Alu(old(Regs()), cb)
    {
      hide Alu, FlagP, IsFlagCallback;
      FlagIs(Regs(), cb);
      ChangeFlag(cb);
    }

    method ChangeFlag(cb: Callback)
      requires IsFlagCallback(cb)
      modifies `processorStatus
      ensures processorStatus == FlagP(old(processorStatus), cb)
    {
      hide WithFlag;
      match cb {
        case CLC => SetFlag(CARRY, false);
        case CLD => SetFlag(DECIMAL, false);
        case CLI => SetFlag(IRQ_DISABLE, false);
        case CLV => SetFlag(OVERFLOW, false);
        case SEC => SetFlag(CARRY, true);
        case SED => SetFlag(DECIMAL, true);
        case SEI => SetFlag(IRQ_DISABLE, true);
      }
    }

    method CheckShaRdy()
      modifies `shaRdyLow
      ensures Regs() == Alu(old(Regs()), ShaRdyCheck)
    {
      hide Alu;
      ShaRdyCheckIs(Regs());
      shaRdyLow := rdy;
    }

    method RunTransfer(cb: Callback)
      requires IsTransfer(cb)
      modifies `xRegister, `processorStatus, `yRegister, `accumulator, `stackPointer
      ensures Regs() == Alu(old(Regs()), cb)
    {
      hide Alu, Regs;
      match cb {
        case TAX => Tax();
        case TAY => Tay();
        case TXA => Txa();
        case TYA => Tya();
        case TSX => Tsx();
        case TXS => Txs();
      }
    }

    method RunStep(cb: Callback)
      requires IsStep(cb)
      modifies `xRegister, `processorStatus, `yRegister, `dataBus
      ensures Regs() == Alu(old(Regs()), cb)
    {
      hide Alu, Regs;
      match cb {
        case DEX => Dex();
        case DEY => Dey();
        case INX => Inx();
        case INY => Iny();
        case DEC => Dec();
        case INC => Inc();
      }
    }

    method RunLogic(cb: Callback)
      requires IsLogic(cb)
      modifies `accumulator, `processorStatus, `xRegister, `stackPointer, `dataBus
      ensures Regs() == Alu(old(Regs()), cb)
    {
      hide Alu, Regs;
      match cb {
        case AND => And();
        case EOR => Eor();
        case ORA => Ora();
        case BIT => Bit();
        case LAX => Lax();
        case LXA => Lxa();
        case ANE => Ane();
        case LAS => Las();
        case SAX => Sax();
      }
    }

    method RunSum(cb: Callback)
      requires IsSum(cb)
      modifies `processorStatus, `xRegister, `dataBus, `accumulator
      ensures Regs() == Alu(old(Regs()), cb)
    {
      hide Alu, Regs;
      match cb {
        case ADC => Adc();
        case SBC => Sbc();
        case CMP => Cmp();
        case CPX => Cpx();
        case CPY => Cpy();
        case SBX => Sbx();
        case DCP => Dcp();
        case ISB => Isb();
      }
    }

    method RunCombinedShift(cb: Callback)
      requires IsCombined(cb)
      modifies `accumulator, `dataBus, `processorStatus
      ensures Regs() == Alu(old(Regs()), cb)
    {
      hide Alu, Regs;
      match cb {
        case SLO => Slo();
        case RLA => Rla();
        case SRE => Sre();
        case RRA => Rra();
        case ALR => Alr();
        case ANC => Anc();
        case ARR => Arr();
      }
    }

    method RunUnstable(cb: Callback)
      requires IsUnstable(cb)
      modifies `hi, `dataBus, `isHalted, `shaRdyLow
      ensures Regs() == Alu(old(Regs()), cb)
    {
      hide Alu, Regs;
      match cb {
        case SHX => Shx();
        case SHY => Shy();
        case JAM => Jam();
        case ShaRdyCheck => CheckShaRdy();
      }
    }

    method RunRegisterOp(cb: Callback)
      requires Touches(cb) && !cb.BRANCH?
      modifies this
      ensures Regs() == Alu(old(Regs()), cb) && Rest() == old(Rest()) && opQueue == old(opQueue)
    {
      hide Alu, Regs, Rest, Touches, IsTransfer, IsFlagCallback, IsStep, IsLogic, IsSum, IsShift, IsCombined, IsUnstable;
      EveryCallback(cb);
      if IsTransfer(cb) || IsFlagCallback(cb) || IsStep(cb) || IsLogic(cb) {
        RunMove(cb);
      } else {
        RunArithmetic(cb);
      }
    }

    method RunMove(cb: Callback)
      requires IsTransfer(cb) || IsFlagCallback(cb) || IsStep(cb) || IsLogic(cb)
      modifies `accumulator, `xRegister, `yRegister, `stackPointer, `dataBus, `processorStatus
      ensures Regs() == Alu(old(Regs()), cb)
    {
      hide Alu, Regs, IsTransfer, IsFlagCallback, IsStep, IsLogic;
      if IsTransfer(cb) {
        RunTransfer(cb);
      } else if IsFlagCallback(cb) {
        RunFlag(cb);
      } else if IsStep(cb) {
        RunStep(cb);
      } else {
        RunLogic(cb);
      }
    }

    method RunArithmetic(cb: Callback)
      requires IsSum(cb) || IsShift(cb) || IsCombined(cb) || IsUnstable(cb)
      modifies `accumulator, `xRegister, `hi, `dataBus, `processorStatus, `isHalted, `shaRdyLow
      ensures Regs() == Alu(old(Regs()), cb)
    {
      hide Alu, Regs, IsSum, IsShift, IsCombined, IsUnstable;
      if IsSum(cb) {
        RunSum(cb);
      } else if IsShift(cb) {
        RunShift(cb);
      } else if IsCombined(cb) {
        RunCombinedShift(cb);
      } else {
        RunUnstable(cb);
      }
    }

    /** The registers, the queue and the rest after something with effect `e` that started with queue `before`. */
    ghost predicate Shows(e: Effect, rest: Control, queue: OpQueue, before: seq<MicroOp>)
      reads this, bus, opQueue, opQueue.data
    {
      Regs() == e.core && Rest() == rest && opQueue == queue && queue.Valid() && queue.Contents() == before + e.push
    }

    method RunOp(cb: Callback)
      requires opQueue.Valid() && Placed(cb) && (cb.BRANCH? ==> opQueue.len < SLOTS)
      modifies this, opQueue, opQueue.data
      ensures Shows(Called(old(Regs()), cb), Moved(old(Rest()), old(Regs()), cb), old(opQueue), old(opQueue.Contents()))
    {
      hide Alu, Regs, Rest, Called, CalledIrq, Touches;
      if cb.BRANCH? || cb.NoOp? || ChangesVectors(cb) {
        RunControl(cb);
      } else {
        RunRegisters(cb);
      }
    }

    method RunRegisters(cb: Callback)
      requires opQueue.Valid() && !cb.BRANCH? && !ChangesVectors(cb) && !cb.NoOp?
      modifies this
      ensures Shows(Called(old(Regs()), cb), Moved(old(Rest()), old(Regs()), cb), old(opQueue), old(opQueue.Contents()))
    {
      hide Alu, Regs, Rest, Called, CalledIrq, Touches;
      RegisterCalls(Rest(), Regs(), cb);
      RunRegisterOp(cb);
    }

    /** The callbacks that touch no register: branches and what changes the interrupt state. */
    method RunControl(cb: Callback)
      requires opQueue.Valid() && Placed(cb) && (cb.BRANCH? ==> opQueue.len < SLOTS)
      requires cb.BRANCH? || cb.NoOp? || ChangesVectors(cb)
      modifies this, opQueue, opQueue.data
      ensures Shows(Called(old(Regs()), cb), Moved(old(Rest()), old(Regs()), cb), old(opQueue), old(opQueue.Contents()))
    {
      hide Alu, Regs, Rest, Holds, Called, CalledIrq, Touches;
      if cb.BRANCH? {
        BranchCalls(Rest(), Regs(), cb);
        Branch(cb.condition);
      } else if cb.NoOp? {
        NothingCalls(Rest(), Regs());
      } else {
        VectorCalls(Regs(), cb);
        RunVector(cb);
      }
    }

    /** A taken branch schedules its first cycle. */
    method Branch(condition: Condition)
      requires opQueue.Valid() && opQueue.len < SLOTS
      modifies opQueue, opQueue.data
      ensures opQueue.Valid() && opQueue.Contents()
           == old(opQueue.Contents()) + if Holds(Regs().p, condition) then [BranchIncrement(Source.LO)] else []
    {
      hide Holds;
      var holds := CheckCondition(condition);
      if holds {
        opQueue.PushBack(BranchIncrement(Source.LO));
      }
    }

    method RunVector(cb: Callback)
      requires ChangesVectors(cb) && Placed(cb)
      modifies `currentIrqVec, `lockedIrqVec, `isInIrq
      ensures Regs() == old(Regs()) && Rest() == Moved(old(Rest()), old(Regs()), cb)
    {
      hide Regs, Rest, CalledIrq;
      match cb {
        case COPY(from, to) => CopyVector(from, to);
        case LockIrqVec => LockVector();
        case ExitIrq => LeaveIrq();
      }
    }

    method CheckCondition(condition: Condition) returns (holds: bool)
      ensures holds == Holds(Regs().p, condition)
    {
      hide Flag;
      match condition {
        case CarrySet => holds := Flag(processorStatus, CARRY);
        case CarryClear => holds := !Flag(processorStatus, CARRY);
        case ZeroSet => holds := Flag(processorStatus, ZERO);
        case ZeroClear => holds := !Flag(processorStatus, ZERO);
        case NegativeSet => holds := Flag(processorStatus, NEGATIVE);
        case NegativeClear => holds := !Flag(processorStatus, NEGATIVE);
        case OverflowSet => holds := Flag(processorStatus, OVERFLOW);
        case OverflowClear => holds := !Flag(processorStatus, OVERFLOW);
      }
    }

    method CopyVector(from: AddressSource, to: Target)
      requires Placed(COPY(from, to))
      modifies `currentIrqVec
      ensures Regs() == old(Regs()) && Rest() == old(Rest()).(irq := CalledIrq(old(Rest()).irq, old(Regs()), COPY(from, to)))
    {
      hide Regs, CalledIrq;
      VectorCopied(Rest().irq, Regs(), from, to);
      if to == IrqVecCandidate {
        currentIrqVec := from.addr;
      }
    }

    method LockVector()
      modifies `lockedIrqVec
      ensures Regs() == old(Regs()) && Rest() == old(Rest()).(irq := CalledIrq(old(Rest()).irq, old(Regs()), LockIrqVec))
    {
      hide Regs, CalledIrq;
      VectorLocked(Rest().irq, Regs());
      lockedIrqVec := currentIrqVec;
    }

    method LeaveIrq()
      modifies `isInIrq
      ensures Regs() == old(Regs()) && Rest() == old(Rest()).(irq := CalledIrq(old(Rest()).irq, old(Regs()), ExitIrq))
    {
      hide Regs, CalledIrq;
      VectorLocked(Rest().irq, Regs());
      isInIrq := false;
    }

    // --- the bus and the operands

    method MemRead(addr: word) returns (value: byte)
      modifies bus
      ensures value == LoadValue(old(Regs()), addr, bus.device) && Regs() == Load(old(Regs()), addr, bus.device)
    {
      value := bus.Read(addr);
    }

    method MemWrite(addr: word, data: byte)
      modifies `rdy, `page, bus
      ensures Regs() == Store(old(Regs()), addr, data)
    {
      bus.Write(addr, data);
      if addr == DMA_ADDRESS {
        rdy := true;
        page := data;
      }
    }

    method StorePc(target: Target, value: byte)
      requires target.PCL? || target.PCH?
      modifies `programCounter
      ensures Regs() == WriteRegister(old(Regs()), target, value)
    {
      hide WithNZ, WithLow, WithHigh;
      if target.PCL? {
        programCounter := WithLow(programCounter, value);
      } else {
        programCounter := WithHigh(programCounter, value);
      }
    }

    method StoreFlagged(target: Target, value: byte)
      requires FlaggedTarget(target)
      modifies `accumulator, `xRegister, `yRegister, `processorStatus
      ensures Regs() == WriteRegister(old(Regs()), target, value)
    {
      hide WithNZ, TargetPc;
      if target.A? {
        accumulator := value;
      } else if target.X? {
        xRegister := value;
      } else {
        yRegister := value;
      }
      UpdateNegativeAndZeroFlags(value);
      assert TargetPc(programCounter, target, value) == programCounter by { PlainPc(programCounter, target, value); }
    }

    method StoreLatch(target: Target, value: byte)
      requires target.LO? || target.HI? || target.DataBus? || target.SP? || target.P? || target.Nowhere?
      modifies `stackPointer, `lo, `hi, `dataBus, `processorStatus
      ensures Regs() == WriteRegister(old(Regs()), target, value)
    {
      hide WriteRegister, StatusPulled;
      LatchWritten(Regs(), target, value);
      match target {
        case SP => stackPointer := value;
        case LO => lo := value;
        case HI => hi := value;
        case DataBus => dataBus := value;
        case P => processorStatus := StatusPulled(value);
        case Nowhere =>
      }
    }

    method WriteToTarget(target: Target, value: byte)
      requires target != IrqVecCandidate
      modifies this, bus
      ensures Regs() == WriteTarget(old(Regs()), target, value) && Rest() == old(Rest()) && opQueue == old(opQueue)
    {
      hide WriteRegister, Store, TargetAddress, Regs, Rest;
      if BusTarget(target) {
        WriteToBus(target, value);
      } else if FlaggedTarget(target) {
        StoreFlagged(target, value);
      } else if target.PCL? || target.PCH? {
        StorePc(target, value);
      } else {
        StoreLatch(target, value);
      }
    }

    method WriteToBus(target: Target, value: byte)
      requires BusTarget(target)
      modifies `rdy, `page, bus
      ensures Regs() == Store(old(Regs()), TargetAddress(old(Regs()), target), value)
    {
      hide Store, Pair, ZeroPage;
      match target {
        case AddressLatch => MemWrite(Pair(hi, lo), value);
        case LoWrite => MemWrite(ZeroPage(lo), value);
        case OamWrite => MemWrite(OAM_ADDRESS, value);
      }
    }

    /** Reads into a target. */
    method ReadInto(addr: word, target: Target)
      requires target != IrqVecCandidate
      modifies this, bus
      ensures Regs() == LoadTo(old(Regs()), addr, target, bus.device) && Rest() == old(Rest()) && opQueue == old(opQueue)
    {
      hide Load, LoadValue, WriteTarget, Regs;
      var value := MemRead(addr);
      WriteToTarget(target, value);
    }

    method AddInto(addTo: Source, add: Source, save: Target)
      requires save != IrqVecCandidate
      modifies this, bus
      ensures Regs() == AddTo(old(Regs()), addTo, add, save) && Rest() == old(Rest()) && opQueue == old(opQueue)
    {
      hide ValueOf, WriteTarget, Plus8, Regs;
      match (ValueOf(Regs(), addTo), ValueOf(Regs(), add)) {
        case (Some(a), Some(b)) => WriteToTarget(save, Plus8(a, b));
        case _ =>
      }
    }

    method IncrementPc(incPc: bool)
      modifies `programCounter
      ensures Regs() == Stepped(old(Regs()), incPc)
    {
      hide Next;
      if incPc {
        programCounter := Next(programCounter);
      }
    }

    // --- micro-operations

    method FetchOperandLo(cb: Callback)
      requires opQueue.Valid() && Placed(cb) && (cb.BRANCH? ==> opQueue.len < SLOTS)
      modifies this, opQueue, opQueue.data, bus
      ensures Shows(ExecFetchLo(old(Regs()), cb, bus.device),
                    Moved(old(Rest()), old(Regs()), cb), old(opQueue), old(opQueue.Contents()))
    {
      hide Rest, Called, CalledIrq, Next, Load, LoadValue;
      ghost var c := Regs();
      FetchLow();
      AnyRegisters(Rest().irq, c, Regs(), cb);
      RunOp(cb);
    }

    method FetchLow()
      modifies `lo, `programCounter, bus
      ensures Regs() == Load(old(Regs()), old(programCounter), bus.device)
                          .(lo := LoadValue(old(Regs()), old(programCounter), bus.device), pc := Next(old(programCounter)))
    {
      lo := MemRead(programCounter);
      programCounter := Next(programCounter);
    }

    method FetchHigh()
      modifies `hi, `programCounter, bus
      ensures Regs() == Load(old(Regs()), old(programCounter), bus.device)
                          .(hi := LoadValue(old(Regs()), old(programCounter), bus.device), pc := Next(old(programCounter)))
    {
      hi := MemRead(programCounter);
      programCounter := Next(programCounter);
    }

    method FetchOperandHi(cb: Callback)
      requires opQueue.Valid() && Placed(cb) && !cb.BRANCH?
      modifies this, opQueue, opQueue.data, bus
      ensures Shows(ExecFetchHi(old(Regs()), cb, bus.device),
                    Moved(old(Rest()), old(Regs()), cb), old(opQueue), old(opQueue.Contents()))
    {
      hide Rest, Called, CalledIrq, Next, Load, LoadValue;
      ghost var c := Regs();
      FetchHigh();
      AnyRegisters(Rest().irq, c, Regs(), cb);
      RunOp(cb);
    }

    method Read(from: AddressSource, target: Target, cb: Callback)
      requires opQueue.Valid() && Placed(cb) && !cb.BRANCH? && target != IrqVecCandidate
      modifies this, opQueue, opQueue.data, bus
      ensures Shows(ExecRead(old(Regs()), from, target, cb, old(lockedIrqVec), bus.device),
                    Moved(old(Rest()), old(Regs()), cb), old(opQueue), old(opQueue.Contents()))
    {
      hide Regs, Rest, Called, CalledIrq, AddressOf, LoadTo;
      ghost var c := Regs();
      match AddressOf(Regs(), from, lockedIrqVec) {
        case Some(address) => ReadInto(address, target);
        case None =>
      }
      AnyRegisters(Rest().irq, c, Regs(), cb);
      RunOp(cb);
    }

    method Write(target: Target, src: Source, pre: bool, cb: Callback)
      requires opQueue.Valid() && Placed(cb) && !cb.BRANCH? && target != IrqVecCandidate
      modifies this, opQueue, opQueue.data, bus
      ensures Shows(ExecWrite(old(Regs()), target, src, pre, cb),
                    Moved(old(Rest()), old(Regs()), cb), old(opQueue), old(opQueue.Contents()))
    {
      hide Regs, Rest, CalledIrq, WriteSource, Alu, Touches;
      ghost var c := Regs();
      if pre {
        RunOp(cb);
      }
      WriteValue(target, src);
      if !pre {
        AnyRegisters(Rest().irq, c, Regs(), cb);
        RunOp(cb);
      }
    }

    method WriteValue(target: Target, src: Source)
      requires target != IrqVecCandidate
      modifies this, bus
      ensures Regs() == WriteSource(old(Regs()), target, src) && Rest() == old(Rest()) && opQueue == old(opQueue)
    {
      hide Regs, ValueOf, WriteTarget;
      match ValueOf(Regs(), src) {
        case Some(value) => WriteToTarget(target, value);
        case None =>
      }
    }

    method PushStack(src: Source, cb: Callback)
      requires opQueue.Valid() && Placed(cb) && !cb.BRANCH?
      modifies this, opQueue, opQueue.data, bus
      ensures Shows(ExecPush(old(Regs()), src, cb),
                    Moved(old(Rest()), old(Regs()), cb), old(opQueue), old(opQueue.Contents()))
    {
      hide Regs, Rest, Called, CalledIrq, Store, StackAddress, ValueOf;
      ghost var c := Regs();
      match ValueOf(c, src) {
        case Some(v) => StoreKeepsStack(c, StackAddress(c.sp), v);
        case None =>
      }
      CoreSp();
      StoreStack(src);
      AnyRegisters(Rest().irq, c, Regs(), cb);
      RunOp(cb);
    }

    method StoreStack(src: Source)
      modifies `rdy, `page, `stackPointer, bus
      ensures Regs() == (match ValueOf(old(Regs()), src)
                         case Some(v) => Store(old(Regs()), StackAddress(old(stackPointer)), v)
                         case None => old(Regs())).(sp := old(stackPointer) - 1)
    {
      hide ValueOf, StackAddress;
      match ValueOf(Regs(), src) {
        case Some(value) => MemWrite(StackAddress(stackPointer), value);
        case None =>
      }
      stackPointer := stackPointer - 1;
    }

    lemma CoreSp()
      ensures Regs().sp == stackPointer
    {
    }

    method LoadStack() returns (value: byte)
      modifies `stackPointer, bus
      ensures var a := StackAddress(old(stackPointer));
        && value == LoadValue(old(Regs()), a, bus.device)
        && Regs() == Load(old(Regs()), a, bus.device).(sp := old(stackPointer) + 1)
    {
      hide StackAddress;
      value := MemRead(StackAddress(stackPointer));
      stackPointer := stackPointer + 1;
    }

    method PopStack(target: Target, cb: Callback)
      requires opQueue.Valid() && Placed(cb) && !cb.BRANCH? && target != IrqVecCandidate
      modifies this, opQueue, opQueue.data, bus
      ensures Shows(ExecPop(old(Regs()), target, cb, bus.device),
                    Moved(old(Rest()), old(Regs()), cb), old(opQueue), old(opQueue.Contents()))
    {
      hide Rest, Called, CalledIrq, Load, LoadValue, StackAddress, WriteTarget;
      ghost var c := Regs();
      KeepsSp(c, StackAddress(c.sp), bus.device);
      var value := LoadStack();
      WriteToTarget(target, value);
      AnyRegisters(Rest().irq, c, Regs(), cb);
      RunOp(cb);
    }

    method PeekStack(target: Target, cb: Callback)
      requires opQueue.Valid() && Placed(cb) && !cb.BRANCH? && target != IrqVecCandidate
      modifies this, opQueue, opQueue.data, bus
      ensures Shows(ExecPeek(old(Regs()), target, cb, bus.device),
                    Moved(old(Rest()), old(Regs()), cb), old(opQueue), old(opQueue.Contents()))
    {
      hide Rest, Called, CalledIrq, LoadTo, StackAddress;
      ghost var c := Regs();
      ReadInto(StackAddress(stackPointer), target);
      AnyRegisters(Rest().irq, c, Regs(), cb);
      RunOp(cb);
    }

    method ReadPageCross(index: Source, target: Target, schedule: bool, cb: Callback)
      requires opQueue.Valid() && Placed(cb) && !cb.BRANCH? && target != IrqVecCandidate
      requires IndexRegister(index) && (schedule ==> opQueue.len < SLOTS)
      modifies this, opQueue, opQueue.data, bus
      ensures Shows(ExecPageCross(old(Regs()), index, target, schedule, cb, bus.device),
                    Moved(old(Rest()), old(Regs()), if Crosses(old(Regs()), index, target, bus.device) then NoOp else cb), old(opQueue), old(opQueue.Contents()))
    {
      hide Regs, Rest, Called, LoadTo, Pair, Borrows, ValueOf, CalledIrq;
      ghost var c := Regs();
      ReadLatched(target);
      var offset := IndexOf(index);
      if Borrows(lo, offset) {
        Unmoved(Rest(), c);
        FixPage(schedule, target, cb);
      } else {
        AnyRegisters(Rest().irq, c, Regs(), cb);
        RunOp(cb);
      }
    }

    method ReadLatched(target: Target)
      requires target != IrqVecCandidate
      modifies this, bus
      ensures Regs() == LoadTo(old(Regs()), Pair(old(Regs()).hi, old(Regs()).lo), target, bus.device)
      ensures Rest() == old(Rest()) && opQueue == old(opQueue) && Regs().lo == lo && Regs().hi == hi
    {
      hide LoadTo, Pair;
      ReadInto(Pair(hi, lo), target);
    }

    /** The index carried: the high byte is fixed, and perhaps read once more. */
    method FixPage(schedule: bool, target: Target, cb: Callback)
      requires opQueue.Valid() && (schedule ==> opQueue.len < SLOTS)
      modifies `hi, opQueue, opQueue.data
      ensures opQueue.Valid() && Regs() == old(Regs()).(hi := old(Regs()).hi + 1)
      ensures opQueue.Contents() == old(opQueue.Contents()) + if schedule then [MicroOp.Read(Latch, target, cb)] else []
    {
      if schedule {
        opQueue.PushBack(MicroOp.Read(AddressSource.AddressLatch, target, cb));
      }
      hi := hi + 1;
    }

    method IndexOf(index: Source) returns (value: byte)
      requires IndexRegister(index)
      ensures ValueOf(Regs(), index) == Some(value)
    {
      value := if index.X? then xRegister else yRegister;
    }

    method ReadCorrupting(updateSp: bool, cfg: Config)
      requires opQueue.Valid()
      modifies this, opQueue, opQueue.data, bus
      ensures Shows(ExecCorrupting(old(Regs()), updateSp, cfg, bus.device),
                    Moved(old(Rest()), old(Regs()), NoOp), old(opQueue), old(opQueue.Contents()))
    {
      hide Pair, Corrupted, Load, LoadValue, Rest, Moved;
      Unmoved(Rest(), Regs());
      var value := MemRead(Pair(hi, lo));
      Corrupt(updateSp, cfg);
    }

    /** The address and the value of an unstable store spoil each other. */
    method Corrupt(updateSp: bool, cfg: Config)
      modifies `dataBus, `shaRdyLow, `stackPointer, `hi
      ensures Regs() == Corrupted(old(Regs()), updateSp, cfg)
    {
      hide Borrows, CorruptValue, CorruptHigh, Bits.And, Bits.Inc;
      var overflow := Borrows(lo, yRegister);
      var config := if updateSp then cfg.tas else cfg.sha;
      var register := CorruptValue(Regs(), config);
      var high := CorruptHigh(Regs(), config, overflow);
      dataBus := if shaRdyLow then register else Bits.And(register, Bits.Inc(hi));
      shaRdyLow := false;
      if updateSp {
        stackPointer := Bits.And(accumulator, xRegister);
      }
      if overflow {
        hi := high;
      }
    }

    method ReadAdding(from: AddressSource, offset: Source, target: Target, cb: Callback)
      requires opQueue.Valid() && Placed(cb) && !cb.BRANCH? && target != IrqVecCandidate
      modifies this, opQueue, opQueue.data, bus
      ensures Shows(ExecDummyAdd(old(Regs()), from, offset, target, cb, old(lockedIrqVec), bus.device),
                    Moved(old(Rest()), old(Regs()), cb), old(opQueue), old(opQueue.Contents()))
    {
      hide Regs, Rest, Called, CalledIrq, AddressOf, ValueOf, Load, LoadValue, WriteTarget, Plus8, Low;
      ghost var c := Regs();
      match AddressOf(Regs(), from, lockedIrqVec) {
        case Some(address) => ReadSum(address, offset, target);
        case None =>
      }
      AnyRegisters(Rest().irq, c, Regs(), cb);
      RunOp(cb);
    }

    /** Reads, and stores the sum of the address and an offset. */
    method ReadSum(address: word, offset: Source, target: Target)
      requires target != IrqVecCandidate
      modifies this, bus
      ensures Regs() == var l := Load(old(Regs()), address, bus.device);
                        match ValueOf(l, offset)
                        case Some(v) => WriteTarget(l, target, Plus8(Low(address), v))
                        case None => l
      ensures Rest() == old(Rest()) && opQueue == old(opQueue)
    {
      hide Regs, Rest, ValueOf, Load, LoadValue, WriteTarget, Plus8, Low;
      var value := MemRead(address);
      match ValueOf(Regs(), offset) {
        case Some(v) => WriteToTarget(target, Plus8(Low(address), v));
        case None =>
      }
    }

    method ReadIdle(cb: Callback)
      requires opQueue.Valid() && Placed(cb) && !cb.BRANCH?
      modifies this, opQueue, opQueue.data, bus
      ensures Shows(ExecDummy(old(Regs()), cb, bus.device),
                    Moved(old(Rest()), old(Regs()), cb), old(opQueue), old(opQueue.Contents()))
    {
      hide Rest, Called, CalledIrq, Load, LoadValue;
      ghost var c := Regs();
      var value := MemRead(programCounter);
      AnyRegisters(Rest().irq, c, Regs(), cb);
      RunOp(cb);
    }

    method ReadZeroPageAdding(from: AddressSource, offset: Source, target: Target, addTo: Source, add: Source,
          save: Target, incPc: bool, cb: Callback)
      requires opQueue.Valid() && Placed(cb) && !cb.BRANCH? && target != IrqVecCandidate && save != IrqVecCandidate
      modifies this, opQueue, opQueue.data, bus
      ensures Shows(ExecZeroPage(old(Regs()), from, offset, target, addTo, add, save, incPc, cb, old(lockedIrqVec), bus.device),
                    Moved(old(Rest()), old(Regs()), cb), old(opQueue), old(opQueue.Contents()))
    {
      hide Regs, Rest, Called, CalledIrq, AddressOf, ValueOf, LoadTo, AddTo, Stepped, ZeroPage, Plus8, Low;
      ghost var c := Regs();
      ReadZeroPageInto(from, offset, target);
      AddInto(addTo, add, save);
      IncrementPc(incPc);
      AnyRegisters(Rest().irq, c, Regs(), cb);
      RunOp(cb);
    }

    method ReadZeroPageInto(from: AddressSource, offset: Source, target: Target)
      requires target != IrqVecCandidate
      modifies this, bus
      ensures Regs() == match (AddressOf(old(Regs()), from, old(lockedIrqVec)), ValueOf(old(Regs()), offset))
                        case (Some(address), Some(o)) => LoadTo(old(Regs()), ZeroPage(Plus8(Low(address), o)), target, bus.device)
                        case _ => old(Regs())
      ensures Rest() == old(Rest()) && opQueue == old(opQueue)
    {
      hide Regs, Rest, AddressOf, ValueOf, LoadTo, ZeroPage, Plus8, Low;
      match (AddressOf(Regs(), from, lockedIrqVec), ValueOf(Regs(), offset)) {
        case (Some(address), Some(o)) => ReadInto(ZeroPage(Plus8(Low(address), o)), target);
        case _ =>
      }
    }

    method ReadAbsoluteAdding(from: AddressSource, offset: Source, target: Target, addTo: Source, add: Source,
          save: Target, incPc: bool, cb: Callback)
      requires opQueue.Valid() && Placed(cb) && !cb.BRANCH? && target != IrqVecCandidate && save != IrqVecCandidate
      modifies this, opQueue, opQueue.data, bus
      ensures Shows(ExecAbsolute(old(Regs()), from, offset, target, addTo, add, save, incPc, cb, old(lockedIrqVec), bus.device),
                    Moved(old(Rest()), old(Regs()), cb), old(opQueue), old(opQueue.Contents()))
    {
      hide Regs, Rest, Called, CalledIrq, AddressOf, ValueOf, LoadTo, AddTo, Stepped, AddLow;
      ghost var c := Regs();
      ReadPageInto(from, offset, target);
      AddInto(addTo, add, save);
      IncrementPc(incPc);
      AnyRegisters(Rest().irq, c, Regs(), cb);
      RunOp(cb);
    }

    method ReadPageInto(from: AddressSource, offset: Source, target: Target)
      requires target != IrqVecCandidate
      modifies this, bus
      ensures Regs() == match (AddressOf(old(Regs()), from, old(lockedIrqVec)), ValueOf(old(Regs()), offset))
                        case (Some(address), Some(o)) => LoadTo(old(Regs()), AddLow(address, o), target, bus.device)
                        case _ => old(Regs())
      ensures Rest() == old(Rest()) && opQueue == old(opQueue)
    {
      hide Regs, Rest, AddressOf, ValueOf, LoadTo, AddLow;
      match (AddressOf(Regs(), from, lockedIrqVec), ValueOf(Regs(), offset)) {
        case (Some(address), Some(o)) => ReadInto(AddLow(address, o), target);
        case _ =>
      }
    }

    method IncrementBranch(src: Source)
      requires opQueue.Valid() && opQueue.len < SLOTS
      modifies this, opQueue, opQueue.data, bus
      ensures Shows(ExecBranch(old(Regs()), src, bus.device),
                    Moved(old(Rest()), old(Regs()), NoOp), old(opQueue), old(opQueue.Contents()))
    {
      hide ValueOf, BranchTarget, High, Low, WithLow, Rest, Moved, Regs, Load, LoadValue;
      Unmoved(Rest(), Regs());
      PcRegister();
      LoadKeepsPc(Regs(), programCounter, bus.device);
      var value := MemRead(programCounter);
      PcRegister();
      match ValueOf(Regs(), src) {
        case Some(offset) => MoveBranch(BranchTarget(programCounter, offset));
        case None =>
      }
    }

    lemma PcRegister()
      ensures Regs().pc == programCounter
    {
    }

    /** The low byte of the target is taken over, and a changed high byte takes another cycle. */
    method MoveBranch(target: word)
      requires opQueue.Valid() && opQueue.len < SLOTS
      modifies `programCounter, opQueue, opQueue.data
      ensures opQueue.Valid() && Regs() == old(Regs()).(pc := WithLow(old(Regs()).pc, Low(target)))
      ensures opQueue.Contents()
           == old(opQueue.Contents()) + if High(old(Regs()).pc) != High(target) then [FixHiBranch(target)] else []
    {
      hide High, Low, WithLow;
      if High(programCounter) != High(target) {
        opQueue.PushBack(MicroOp.FixHiBranch(target));
      }
      programCounter := WithLow(programCounter, Low(target));
    }

    method FixBranch(target: word)
      requires opQueue.Valid()
      modifies this, opQueue, opQueue.data, bus
      ensures Shows(ExecFixHi(old(Regs()), target, bus.device),
                    Moved(old(Rest()), old(Regs()), NoOp), old(opQueue), old(opQueue.Contents()))
    {
      hide Load, LoadValue, Rest, Moved;
      Unmoved(Rest(), Regs());
      var value := MemRead(programCounter);
      programCounter := target;
    }

    /** Fetches an opcode and schedules its program. */
    method FetchNextOpcode()
      requires opQueue.Valid() && opQueue.len + |ExecFetchOpcode(Regs(), bus.device).push| <= SLOTS
      modifies this, opQueue, opQueue.data, bus
      ensures Shows(ExecFetchOpcode(old(Regs()), bus.device), old(Rest()), old(opQueue), old(opQueue.Contents()))
    {
      hide Decode, Program, Next, Rest, Regs, Load, LoadValue;
      ghost var opcode := LoadValue(Regs(), Regs().pc, bus.device);
      assert ExecFetchOpcode(Regs(), bus.device).push == Program(Decode(opcode));
      LoadOpcode();
      opQueue.PushAll(Program(currentOpcode));
    }

    method LoadOpcode()
      modifies `programCounter, `currentOpcode, bus
      ensures Regs() == ExecFetchOpcode(old(Regs()), bus.device).core
      ensures currentOpcode == Decode(LoadValue(old(Regs()), old(Regs()).pc, bus.device))
    {
      hide Decode, Program, Next;
      var opcode := MemRead(programCounter);
      programCounter := Next(programCounter);
      currentOpcode := Decode(opcode);
    }

    // --- dispatch

    method ExecuteFetch(op: MicroOp, cfg: Config)
      requires IsFetching(op) && Runnable(op) && opQueue.Valid() && (Extra(op) > 0 ==> opQueue.Contents() == [])
      modifies this, opQueue, opQueue.data, bus
      ensures Shows(Exec(old(Regs()), op, old(lockedIrqVec), cfg, bus.device),
                    Moved(old(Rest()), old(Regs()), CallbackOf(op)),
                    old(opQueue), old(opQueue.Contents()))
    {
      hide Exec, Regs, Rest, ExecFetchOpcode, ExecFetchLo, ExecFetchHi, ExecDummy, CalledIrq;
      ghost var vec, dev := lockedIrqVec, bus.device;
      match op {
        case FetchOpcode =>
          IsFetch(Regs(), NoOp, vec, cfg, dev);
          NothingCalls(Rest(), Regs());
          FetchFits(Regs(), dev);
          FetchNextOpcode();
        case FetchOperandLo(cb) =>
          IsFetch(Regs(), cb, vec, cfg, dev);
          FetchOperandLo(cb);
        case FetchOperandHi(cb) =>
          IsFetch(Regs(), cb, vec, cfg, dev);
          FetchOperandHi(cb);
        case DummyRead(cb) =>
          IsFetch(Regs(), cb, vec, cfg, dev);
          ReadIdle(cb);
      }
    }

    method ExecuteStack(op: MicroOp, cfg: Config)
      requires IsStacking(op) && Runnable(op) && opQueue.Valid()
      modifies this, opQueue, opQueue.data, bus
      ensures Shows(Exec(old(Regs()), op, old(lockedIrqVec), cfg, bus.device),
                    Moved(old(Rest()), old(Regs()), CallbackOf(op)),
                    old(opQueue), old(opQueue.Contents()))
    {
      hide Exec, Regs, Rest, ExecPush, ExecPop, ExecPeek, CalledIrq;
      ghost var vec, dev := lockedIrqVec, bus.device;
      match op {
        case StackPush(src, cb) =>
          IsStack(Regs(), Target.Nowhere, src, cb, vec, cfg, dev);
          PushStack(src, cb);
        case StackPop(to, cb) =>
          IsStack(Regs(), to, Source.Absent, cb, vec, cfg, dev);
          PopStack(to, cb);
        case StackPeek(to, cb) =>
          IsStack(Regs(), to, Source.Absent, cb, vec, cfg, dev);
          PeekStack(to, cb);
      }
    }

    method ExecuteAccess(op: MicroOp, cfg: Config)
      requires IsAccessing(op) && Runnable(op) && opQueue.Valid() && (Extra(op) > 0 ==> opQueue.Contents() == [])
      modifies this, opQueue, opQueue.data, bus
      ensures Shows(Exec(old(Regs()), op, old(lockedIrqVec), cfg, bus.device),
                    Moved(old(Rest()), old(Regs()), CallbackOf(op)),
                    old(opQueue), old(opQueue.Contents()))
    {
      hide Exec, Regs, Rest, ExecRead, ExecWrite, ExecPageCross, ExecCorrupting, CalledIrq, Crosses;
      ghost var vec, dev := lockedIrqVec, bus.device;
      match op {
        case Read(from, to, cb) =>
          IsRead(Regs(), from, to, cb, vec, cfg, dev);
          Read(from, to, cb);
        case Write(to, src, pre, cb) =>
          IsWrite(Regs(), to, src, pre, cb, vec, cfg, dev);
          Write(to, src, pre, cb);
        case ReadPageCrossAware(index, to, schedule, cb) =>
          IsIndexed(Regs(), Latch, index, to, schedule, cb, vec, cfg, dev);
          RegisterCallbackMoves(Rest(), Regs(), cb);
          ReadPageCross(index, to, schedule, cb);
        case ReadPageCrossCorrupting(updateSp) =>
          IsCorrupting(Regs(), updateSp, vec, cfg, dev);
          ReadCorrupting(updateSp, cfg);
      }
    }

    method ExecuteAdding(op: MicroOp, cfg: Config)
      requires IsAdding(op) && Runnable(op) && opQueue.Valid() && (Extra(op) > 0 ==> opQueue.Contents() == [])
      modifies this, opQueue, opQueue.data, bus
      ensures Shows(Exec(old(Regs()), op, old(lockedIrqVec), cfg, bus.device),
                    Moved(old(Rest()), old(Regs()), CallbackOf(op)),
                    old(opQueue), old(opQueue.Contents()))
    {
      hide Exec, Regs, Rest, ExecDummyAdd, ExecZeroPage, ExecAbsolute, ExecBranch, ExecFixHi, CalledIrq;
      ghost var vec, dev := lockedIrqVec, bus.device;
      match op {
        case DummyReadAdd(from, offset, to, cb) =>
          IsIndexed(Regs(), from, offset, to, false, cb, vec, cfg, dev);
          ReadAdding(from, offset, to, cb);
        case ReadZeroPage(from, offset, to, addTo, add, save, incPc, cb) =>
          IsZeroPage(Regs(), from, offset, to, addTo, add, save, incPc, cb, vec, cfg, dev);
          ReadZeroPageAdding(from, offset, to, addTo, add, save, incPc, cb);
        case ReadAbsolute(from, offset, to, addTo, add, save, incPc, cb) =>
          IsAbsolute(Regs(), from, offset, to, addTo, add, save, incPc, cb, vec, cfg, dev);
          ReadAbsoluteAdding(from, offset, to, addTo, add, save, incPc, cb);
        case BranchIncrement(src) =>
          IsBranch(Regs(), src, 0, vec, cfg, dev);
          IncrementBranch(src);
        case FixHiBranch(pc) =>
          IsBranch(Regs(), Source.LO, pc, vec, cfg, dev);
          FixBranch(pc);
      }
    }

    method ExecuteMicroOp(op: MicroOp, cfg: Config)
      requires Runnable(op) && opQueue.Valid() && (Extra(op) > 0 ==> opQueue.Contents() == [])
      modifies this, opQueue, opQueue.data, bus
      ensures Shows(Exec(old(Regs()), op, old(lockedIrqVec), cfg, bus.device),
                    Moved(old(Rest()), old(Regs()), CallbackOf(op)),
                    old(opQueue), old(opQueue.Contents()))
    {
      hide Exec, Regs, Rest, CalledIrq, CallbackOf, Runnable, Extra;
      if IsFetching(op) {
        ExecuteFetch(op, cfg);
      } else if IsStacking(op) {
        ExecuteStack(op, cfg);
      } else if IsAccessing(op) {
        ExecuteAccess(op, cfg);
      } else {
        ExecuteAdding(op, cfg);
      }
    }

    // --- one cycle

    method PollNmi()
      modifies `nmiDetected, `nmiPending
      ensures nmiPending == (old(nmiPending) || old(nmiDetected)) && !nmiDetected
    {
      if nmiDetected {
        nmiPending := true;
        nmiDetected := false;
      }
    }

    /** Before a micro-operation: what was seen of the interrupt lines becomes pending. */
    method PollInterrupts()
      requires opQueue.Valid()
      modifies `nmiDetected, `nmiPending, `irqPending
      ensures opQueue.Valid() && View() == Polled(old(View()))
    {
      hide Regs;
      assert rdy == Regs().rdy by { RdyRegister(); }
      if !currentOp.BranchIncrement? && !isInIrq && !rdy {
        PollNmi();
        irqPending := irqDetected;
      }
    }

    lemma RdyRegister()
      ensures Regs().rdy == rdy && Regs().page == page && Regs().halted == isHalted && Regs().p == processorStatus
      ensures Regs().hi == hi && Regs().lo == lo
    {
    }

    /** Executes the current micro-operation. */
    method ExecuteCurrent(cfg: Config)
      requires Runnable(currentOp) && opQueue.Valid() && (Extra(currentOp) > 0 ==> opQueue.Contents() == [])
      modifies this, opQueue, opQueue.data, bus
      ensures opQueue == old(opQueue) && opQueue.Valid() && View() == Executed(old(View()), cfg, bus.device)
    {
      hide Exec, Regs, CalledIrq, CallbackOf, Runnable, Extra;
      ExecuteMicroOp(currentOp, cfg);
    }

    /** Starts the DMA that was asked for. */
    method ExecuteOamDma()
      requires opQueue.Valid()
      modifies `rdy, `isInIrq, `remainingDmaCycles
      ensures opQueue.Valid() && View() == DmaStarted(old(View()))
    {
      if rdy {
        rdy := false;
        isInIrq := true;
        remainingDmaCycles := DMA_CYCLES;
      }
    }

    /** After a micro-operation: looks at the interrupt lines. */
    method SampleLines(lines: Lines)
      requires opQueue.Valid()
      modifies `currentIrqVec, `nmiDetected, `prevNmi, `irqDetected
      ensures opQueue.Valid() && View() == Sampled(old(View()), lines)
    {
      hide Regs;
      SampleNmi(lines.nmi);
      SampleIrq(lines.irq);
    }

    method SampleNmi(line: bool)
      modifies `currentIrqVec, `nmiDetected, `prevNmi
      ensures currentIrqVec == (if line && !old(prevNmi) then NMI_VECTOR else old(currentIrqVec))
      ensures nmiDetected == (old(nmiDetected) || (line && !old(prevNmi))) && prevNmi == line
    {
      if line && !prevNmi {
        currentIrqVec := NMI_VECTOR;
        nmiDetected := true;
      }
      prevNmi := line;
    }

    method SampleIrq(line: bool)
      modifies `currentIrqVec, `irqDetected
      ensures currentIrqVec == (if line then IRQ_VECTOR else old(currentIrqVec)) && irqDetected == line
    {
      if line {
        currentIrqVec := IRQ_VECTOR;
        irqDetected := true;
      } else {
        irqDetected := false;
      }
    }

    /** Schedules a sequence in a new queue, its first micro-operation the current one. */
    method Enter(ops: seq<MicroOp>)
      requires 1 <= |ops| <= SLOTS
      modifies `isInIrq, `currentOp, `opQueue
      ensures fresh(opQueue) && fresh(opQueue.data) && opQueue.Valid() && isInIrq
      ensures currentOp == ops[0] && opQueue.Contents() == ops[1..]
    {
      var sequence := new OpQueue();
      sequence.PushAll(ops);
      isInIrq := true;
      var next := sequence.PopFront();
      currentOp := next.value;
      opQueue := sequence;
    }

    method TriggerInterrupt(vector: word)
      requires opQueue.Valid()
      modifies `isInIrq, `currentOp, `opQueue, `nmiPending, `irqPending
      ensures fresh(opQueue) && fresh(opQueue.data) && opQueue.Valid() && View() == Interrupted(old(View()), vector)
    {
      hide Regs, InterruptProgram;
      Programs(vector);
      Enter(InterruptProgram(vector));
      nmiPending := false;
      irqPending := false;
    }

    /** The next micro-operation becomes current. */
    method NextOp()
      requires opQueue.Valid()
      modifies `isInIrq, `currentOp, `opQueue, `nmiPending, `irqPending, opQueue, opQueue.data
      ensures opQueue == old(opQueue) || (fresh(opQueue) && fresh(opQueue.data))
      ensures opQueue.Valid() && View() == Advance(old(View()))
    {
      hide Regs, Interrupted, Flag;
      RdyRegister();
      var next := opQueue.PopFront();
      if next.Some? {
        currentOp := next.value;
      } else if nmiPending {
        TriggerInterrupt(NMI_VECTOR);
      } else if irqPending && !Flag(processorStatus, IRQ_DISABLE) {
        TriggerInterrupt(IRQ_VECTOR);
      } else {
        currentOp := FetchOpcode;
      }
    }

    /** The access of a DMA cycle. */
    method ProcessOamDma(cfg: Config)
      requires opQueue.Valid() && 1 <= remainingDmaCycles <= DMA_CYCLES
      modifies this, opQueue, opQueue.data, bus
      ensures opQueue == old(opQueue) && opQueue.Valid() && View() == DmaAccess(old(View()), cfg, bus.device)
    {
      hide Regs, DmaIdle, DmaTransfer, DmaAddress;
      if remainingDmaCycles == DMA_CYCLES {
        IdleDma(cfg);
        return;
      }
      if remainingDmaCycles == DMA_CYCLES - 1 {
        if !readCycle {
          IdleDma(cfg);
          return;
        }
        remainingDmaCycles := remainingDmaCycles - 1;
      }
      TransferDma(cfg);
    }

    method IdleDma(cfg: Config)
      requires opQueue.Valid()
      modifies this, opQueue, opQueue.data, bus
      ensures opQueue == old(opQueue) && opQueue.Valid() && View() == DmaIdle(old(View()), cfg, bus.device)
    {
      hide Exec, Regs;
      var read := MicroOp.Read(AddressSource.AddressLatch, Target.Nowhere, NoOp);
      DmaOps(read, Rest(), Regs(), lockedIrqVec, cfg, bus.device);
      ExecuteMicroOp(read, cfg);
    }

    method TransferDma(cfg: Config)
      requires opQueue.Valid() && 1 <= remainingDmaCycles <= 512
      modifies this, opQueue, opQueue.data, bus
      ensures opQueue == old(opQueue) && opQueue.Valid() && View() == DmaTransfer(old(View()), cfg, bus.device)
    {
      hide Exec, Regs, DmaAddress, CalledIrq;
      RdyRegister();
      if remainingDmaCycles % 2 == 0 {
        var read := MicroOp.Read(AddressSource.Address(DmaAddress(page, 256 - remainingDmaCycles / 2)), Target.DataBus, NoOp);
        DmaOps(read, Rest(), Regs(), lockedIrqVec, cfg, bus.device);
        ExecuteMicroOp(read, cfg);
      } else {
        var write := MicroOp.Write(OamWrite, Source.DataBus, false, if remainingDmaCycles == 1 then ExitIrq else NoOp);
        DmaOps(write, Rest(), Regs(), lockedIrqVec, cfg, bus.device);
        ExecuteMicroOp(write, cfg);
      }
    }

    /** A cycle of DMA. */
    method StepDma(cfg: Config)
      requires opQueue.Valid() && 1 <= remainingDmaCycles <= DMA_CYCLES
      modifies this, opQueue, opQueue.data, bus
      ensures opQueue == old(opQueue) && opQueue.Valid() && View() == DmaCycle(old(View()), cfg, bus.device)
    {
      hide Regs, DmaAccess;
      ProcessOamDma(cfg);
      remainingDmaCycles := remainingDmaCycles - 1;
    }

    /** A cycle without DMA. */
    method StepOp(lines: Lines, cfg: Config)
      requires opQueue.Valid() && Runnable(currentOp) && (Extra(currentOp) > 0 ==> opQueue.Contents() == [])
      modifies this, opQueue, opQueue.data, bus
      ensures opQueue == old(opQueue) || (fresh(opQueue) && fresh(opQueue.data))
      ensures opQueue.Valid()
      ensures View() == Advance(Sampled(DmaStarted(Executed(Polled(old(View())), cfg, bus.device)), lines))
    {
      hide Regs, Polled, Executed, DmaStarted, Sampled, Advance, Runnable, Extra;
      PolledSame(View());
      PollInterrupts();
      ExecuteCurrent(cfg);
      ExecuteOamDma();
      SampleLines(lines);
      NextOp();
    }

    /** One CPU cycle keeps the invariant, and does what the machine on values does. */
    method Step(lines: Lines, cfg: Config)
      requires opQueue.Valid() && Inv(View())
      modifies this, opQueue, opQueue.data, bus
      ensures opQueue == old(opQueue) || (fresh(opQueue) && fresh(opQueue.data))
      ensures opQueue.Valid() && Inv(View()) && View() == Cycle(old(View()), lines, cfg, bus.device)
    {
      hide Regs, Inv, Polled, Executed, DmaStarted, Sampled, Advance, DmaCycle, Scheduled, Runnable, Extra;
      CycleInv(View(), lines, cfg, bus.device);
      InvDma(View());
      InvRunnable(View());
      RdyRegister();
      if isHalted {
        return;
      }
      readCycle := !readCycle;
      if remainingDmaCycles > 0 {
        StepDma(cfg);
      } else {
        StepOp(lines, cfg);
      }
    }

    /** Pressing reset schedules the reset sequence, unless an interrupt sequence is running. */
    method Reset()
      requires opQueue.Valid()
      modifies `isInIrq, `currentOp, `opQueue
      ensures opQueue == old(opQueue) || (fresh(opQueue) && fresh(opQueue.data))
      ensures opQueue.Valid() && View() == CpuMachine.Reset(old(View()))
    {
      hide Regs, ResetProgram;
      Programs(0);
      if !isInIrq {
        Enter(ResetProgram());
      }
    }
  }

  lemma InvDma(m: Machine)
    requires Inv(m)
    ensures m.dma.remaining <= DMA_CYCLES
  {
    hide Scheduled, StackBitsClear;
  }

  lemma InvRunnable(m: Machine)
    requires Inv(m)
    ensures Runnable(m.cur) && (Extra(m.cur) > 0 ==> m.queue == [])
  {
    hide StackBitsClear, Sane, Extra, Budget;
    if !m.cur.FetchOpcode? {
      assert ([m.cur] + m.queue)[0] == m.cur;
    }
  }

  lemma PolledSame(m: Machine)
    ensures Polled(m).cur == m.cur && Polled(m).queue == m.queue
  {
  }

  lemma Programs(vector: word)
    ensures |InterruptProgram(vector)| == 7 && |ResetProgram()| == 7
  {
  }

  /** The accesses of a DMA schedule nothing, and change the interrupt state only at its end. */
  lemma DmaOps(op: MicroOp, r: Control, c: Core, vec: word, cfg: Config, dev: Device)
    requires (op.Read? && op.cb.NoOp? && (op.to.Nowhere? || op.to.DataBus?) && !op.from.Absent?)
          || (op.Write? && op.to.OamWrite? && op.src.DataBus? && !op.pre && (op.cb.NoOp? || op.cb.ExitIrq?))
    ensures Runnable(op) && Extra(op) == 0 && Exec(c, op, vec, cfg, dev).push == []
    ensures op.cb.NoOp? ==> Moved(r, c, op.cb) == r
  {
    hide LoadTo, WriteSource, Alu;
  }

  predicate IsFetching(op: MicroOp) { op.FetchOpcode? || op.FetchOperandLo? || op.FetchOperandHi? || op.DummyRead? }
  predicate IsStacking(op: MicroOp) { op.StackPush? || op.StackPop? || op.StackPeek? }
  predicate IsAccessing(op: MicroOp) { op.Read? || op.Write? || op.ReadPageCrossAware? || op.ReadPageCrossCorrupting? }
  predicate IsAdding(op: MicroOp) {
    op.DummyReadAdd? || op.ReadZeroPage? || op.ReadAbsolute? || op.BranchIncrement? || op.FixHiBranch?
  }

  predicate Runnable(op: MicroOp) {
    op.FetchOpcode? || Sane(op)
  }

  lemma FetchFits(c: Core, dev: Device)
    ensures |ExecFetchOpcode(c, dev).push| <= 7
  {
    hide Decode, Program, Extra, Orderly;
    EveryOpcodeIsAnEntry(LoadValue(c, c.pc, dev));
    ProgramLoadable(Decode(LoadValue(c, c.pc, dev)));
  }

  lemma RegisterCallbackMoves(r: Control, c: Core, cb: Callback)
    requires !cb.COPY? && !cb.LockIrqVec? && !cb.ExitIrq?
    ensures Moved(r, c, cb) == r && Moved(r, c, NoOp) == r
  {
  }

  lemma IsCorrupting(c: Core, updateSp: bool, vec: word, cfg: Config, dev: Device)
    ensures Exec(c, ReadPageCrossCorrupting(updateSp), vec, cfg, dev) == ExecCorrupting(c, updateSp, cfg, dev)
  {
    hide ExecFetchOpcode, ExecFetchLo, ExecFetchHi, ExecRead, ExecWrite, ExecPush, ExecPop, ExecPeek, ExecPageCross,
      ExecCorrupting, ExecDummyAdd, ExecDummy, ExecZeroPage, ExecAbsolute, ExecBranch, ExecFixHi;
  }

  /** The control state after a callback. */
  function Moved(r: Control, c: Core, cb: Callback): Control {
    r.(irq := CalledIrq(r.irq, c, cb))
  }

  /** The index carried into the high byte. */
  predicate Crosses(c: Core, index: Source, target: Target, dev: Device) {
    var l := LoadTo(c, Pair(c.hi, c.lo), target, dev);
    match ValueOf(l, index) case Some(i) => Borrows(l.lo, i) case None => false
  }

  predicate ChangesVectors(cb: Callback) {
    cb.COPY? || cb.LockIrqVec? || cb.ExitIrq?
  }

  lemma BranchCalls(r: Control, c: Core, cb: Callback)
    requires cb.BRANCH?
    ensures Called(c, cb) == Effect(c, if Holds(c.p, cb.condition) then [BranchIncrement(Source.LO)] else [])
    ensures Moved(r, c, cb) == r
  {
    hide Holds;
  }

  lemma VectorCalls(c: Core, cb: Callback)
    requires ChangesVectors(cb)
    ensures Called(c, cb) == Effect(c, [])
  {
    hide Alu;
  }

  lemma VectorCopied(i: Irq, c: Core, from: AddressSource, to: Target)
    requires from.Address?
    ensures CalledIrq(i, c, COPY(from, to)) == if to == IrqVecCandidate then i.(current := from.addr) else i
  {
  }

  lemma VectorLocked(i: Irq, c: Core)
    ensures CalledIrq(i, c, LockIrqVec) == i.(locked := i.current) && CalledIrq(i, c, ExitIrq) == i.(inIrq := false)
  {
    hide AddressOf;
  }

  lemma NothingCalls(r: Control, c: Core)
    ensures Called(c, NoOp) == Effect(c, []) && Moved(r, c, NoOp) == r
  {
    hide Alu;
  }

  lemma RegisterCalls(r: Control, c: Core, cb: Callback)
    requires !cb.BRANCH? && !ChangesVectors(cb) && !cb.NoOp?
    ensures Called(c, cb) == Effect(Alu(c, cb), []) && Moved(r, c, cb) == r && Touches(cb)
  {
    hide Alu;
  }

  lemma StoreKeepsStack(c: Core, addr: word, v: byte)
    ensures Store(c, addr, v).sp == c.sp
  {
  }

  lemma Unmoved(r: Control, c: Core)
    ensures Moved(r, c, NoOp) == r
  {
  }

  lemma LoadKeepsPc(c: Core, addr: word, dev: Device)
    ensures Load(c, addr, dev).pc == c.pc
  {
  }

  lemma KeepsSp(c: Core, addr: word, dev: Device)
    ensures Load(c, addr, dev).sp == c.sp
  {
  }

  /** The vector copied by a callback does not depend on the registers. */
  predicate Placed(cb: Callback) {
    cb.COPY? ==> cb.from.Address?
  }

  lemma AnyRegisters(i: Irq, c: Core, d: Core, cb: Callback)
    requires Placed(cb)
    ensures CalledIrq(i, c, cb) == CalledIrq(i, d, cb)
  {
  }

  lemma LatchWritten(c: Core, to: Target, v: byte)
    requires to.LO? || to.HI? || to.DataBus? || to.SP? || to.P? || to.Nowhere?
    ensures WriteRegister(c, to, v) == match to
                                       case SP => c.(sp := v)
                                       case LO => c.(lo := v)
                                       case HI => c.(hi := v)
                                       case DataBus => c.(db := v)
                                       case P => c.(p := StatusPulled(v))
                                       case _ => c
  {
    hide WithNZ, TargetPc, StatusPulled;
    PlainPc(c.pc, to, v);
  }

  lemma PlainPc(pc: word, target: Target, v: byte)
    requires !target.PCL? && !target.PCH?
    ensures TargetPc(pc, target, v) == pc
  {
  }

  lemma SameCarryBit(p: byte, v: byte)
    ensures Flag(WithNZ(p, v), CARRY) == Flag(p, CARRY)
  {
  }

  /** The sign and zero flags of a shifted accumulator are set once more. */
  lemma ShiftedTwice(p: byte, s: Shifted)
    ensures WithNZ(ShiftFlags(p, s), s.result) == ShiftFlags(p, s)
  {
    hide WithNZ, WithFlag;
    NZAgain(p, s.carry, s.result);
  }

  lemma ShiftedCarry(p: byte, s: Shifted)
    ensures Flag(ShiftFlags(p, s), CARRY) == s.carry
  {
  }
}
