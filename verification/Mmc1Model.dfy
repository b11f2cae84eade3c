/** MMC1: registers behind a serial port that takes one bit per write, and the banks they select. */
module Mmc1Model {
  import opened Bits
  import opened Nametables

  const KB_16 := 0x4000
  const NEVER := -1

  datatype Registers = Registers(ctrl: byte, chr0: byte, chr1: byte, prg: byte)

  /** A write to $8000-$FFFF. */
  datatype SerialWrite = SerialWrite(addr: nat, data: byte, cycle: nat)
  {
    /** The first cycle a write can happen in is cycle 1. */
    predicate Valid() {
      0x8000 <= addr <= 0xFFFF && (!Resets() ==> cycle >= 1)
    }
    predicate Resets() {
      ResetBit(data)
    }
  }

  /** The serial port: the bits so far, how many, the cycle of the last write, and the registers. */
  datatype Serial = Serial(shift: byte, count: nat, last: int, regs: Registers)

  // --- what the code does with one write

  function ShiftedIn(shift: byte, data: byte): byte {
    (shift >> 1) | ((data & 1) << 4)
  }

  function WithPrgMode3(ctrl: byte): byte { ctrl | 0x0C }

  predicate ResetBit(data: byte) { data & 0x80 != 0 }

  /** The address of the write chooses the register. */
  function Chosen(r: Registers, addr: nat, value: byte): Registers {
    match addr / 0x2000
    case 4 => r.(ctrl := value)
    case 5 => r.(chr0 := value)
    case 6 => r.(chr1 := value)
    case 7 => r.(prg := value)
    case _ => r
  }

  function Pushed(s: Serial, w: SerialWrite): Serial {
    var shift := ShiftedIn(s.shift, w.data);
    if s.count + 1 == 5 then Serial(0, 0, s.last, Chosen(s.regs, w.addr, shift))
    else s.(shift := shift, count := s.count + 1)
  }

  function Serve(s: Serial, w: SerialWrite): Serial {
    if w.Resets() then s.(shift := 0, regs := s.regs.(ctrl := WithPrgMode3(s.regs.ctrl)))
    else (if s.last != w.cycle - 1 then Pushed(s, w) else s).(last := w.cycle)
  }

  function ServeAll(s: Serial, ws: seq<SerialWrite>): Serial
    decreases |ws|
  {
    if ws == [] then s else ServeAll(Serve(s, ws[0]), ws[1..])
  }

  // --- what the protocol promises

  /** Writes on the cycle right after another one do not count; `last` is the cycle of the write before. */
  function Accepted(ws: seq<SerialWrite>, last: int): seq<SerialWrite> {
    if ws == [] then []
    else (if last != ws[0].cycle - 1 then [ws[0]] else []) + Accepted(ws[1..], ws[0].cycle)
  }

  /** Five data bits, the first one lowest. */
  function FiveBits(five: seq<SerialWrite>): byte
    requires |five| == 5
  {
    Five(five[0].data, five[1].data, five[2].data, five[3].data, five[4].data)
  }

  function Five(a: byte, b: byte, c: byte, d: byte, e: byte): byte {
    (a & 1) | ((b & 1) << 1) | ((c & 1) << 2) | ((d & 1) << 3) | ((e & 1) << 4)
  }

  /** Every full group of five accepted writes loads the register that its fifth write addresses. */
  function Committed(ws: seq<SerialWrite>, r: Registers): Registers {
    if |ws| < 5 then r else Committed(ws[5..], Chosen(r, ws[4].addr, FiveBits(ws[..5])))
  }

  /** The accepted writes behind the last full group. */
  function Remaining(ws: seq<SerialWrite>): seq<SerialWrite> {
    if |ws| < 5 then ws else Remaining(ws[5..])
  }

  /** The shift register while a group is incomplete. */
  function Collected(bits: seq<SerialWrite>): byte {
    if bits == [] then 0 else ShiftedIn(Collected(bits[..|bits| - 1]), bits[|bits| - 1].data)
  }

  lemma CollectedFive(a: byte, b: byte, c: byte, d: byte, e: byte)
    ensures ShiftedIn(ShiftedIn(ShiftedIn(ShiftedIn(ShiftedIn(0, a), b), c), d), e) == Five(a, b, c, d, e)
  {
  }

  lemma CollectsFive(five: seq<SerialWrite>)
    requires |five| == 5
    ensures Collected(five) == FiveBits(five)
  {
    hide ShiftedIn, Five;
    CollectedFive(five[0].data, five[1].data, five[2].data, five[3].data, five[4].data);
    var four, three, two, one := five[..4], five[..3], five[..2], five[..1];
    assert four[..3] == three && three[..2] == two && two[..1] == one && one[..0] == [];
    assert Collected(one) == ShiftedIn(0, five[0].data);
    assert Collected(two) == ShiftedIn(Collected(one), five[1].data);
    assert Collected(three) == ShiftedIn(Collected(two), five[2].data);
    assert Collected(four) == ShiftedIn(Collected(three), five[3].data);
  }

  lemma CollectedMore(bits: seq<SerialWrite>, w: SerialWrite)
    ensures Collected(bits + [w]) == ShiftedIn(Collected(bits), w.data)
  {
    hide ShiftedIn;
    assert (bits + [w])[..|bits|] == bits;
  }

  /** The port with the bits of an incomplete group shifted in. */
  predicate Pending(s: Serial, bits: seq<SerialWrite>) {
    s.shift == Collected(bits) && s.count == |bits| < 5
  }

  predicate NoReset(ws: seq<SerialWrite>) {
    forall i :: 0 <= i < |ws| ==> !ws[i].Resets()
  }

  /**
   Writes without a reset load one register for every fifth accepted write, and nothing else; what is
   left over waits in the shift register.
   */
  lemma {:induction false} EveryFifthWrite(s: Serial, bits: seq<SerialWrite>, ws: seq<SerialWrite>)
    requires Pending(s, bits) && NoReset(ws)
    ensures var all := bits + Accepted(ws, s.last);
      ServeAll(s, ws).regs == Committed(all, s.regs) && Pending(ServeAll(s, ws), Remaining(all))
    decreases |ws|
  {
    hide Chosen, FiveBits, ShiftedIn, Collected;
    if ws == [] {
      assert bits + [] == bits;
    } else {
      var w, rest := ws[0], ws[1..];
      var t := Serve(s, w);
      assert NoReset(rest) && !w.Resets();
      var acc := Accepted(rest, w.cycle);
      if s.last == w.cycle - 1 {
        EveryFifthWrite(t, bits, rest);
        assert Accepted(ws, s.last) == acc;
      } else {
        CollectedMore(bits, w);
        var more := bits + [w];
        assert bits + Accepted(ws, s.last) == more + acc;
        if |more| == 5 {
          CollectsFive(more);
          CollectedNothing();
          assert (more + acc)[..5] == more && (more + acc)[5..] == acc && [] + acc == acc;
          EveryFifthWrite(t, [], rest);
        } else {
          EveryFifthWrite(t, more, rest);
        }
      }
    }
  }

  lemma CollectedNothing()
    ensures Collected([]) == 0
  {
  }

  // --- resets

  function Zeros(n: nat): seq<SerialWrite> {
    seq(n, _ => SerialWrite(0x8000, 0, 1))
  }

  lemma {:induction false} CollectedZeros(n: nat)
    ensures Collected(Zeros(n)) == 0
    decreases n
  {
    hide ShiftedIn;
    if n > 0 {
      CollectedZeros(n - 1);
      CollectedMore(Zeros(n - 1), SerialWrite(0x8000, 0, 1));
      assert Zeros(n) == Zeros(n - 1) + [SerialWrite(0x8000, 0, 1)];
      assert ShiftedIn(0, 0) == 0 by { ZeroIn(); }
    }
  }

  lemma ZeroIn()
    ensures ShiftedIn(0, 0) == 0
  {
  }

  /**
   A reset write clears the bits but not their count.  It is as if the bits that were waiting had all been
   0: the writes behind it finish that group, whose register gets them shifted up, and go on from there.
   */
  lemma ResetKeepsCount(s: Serial, reset: SerialWrite, ws: seq<SerialWrite>)
    requires s.count < 5 && reset.Resets() && NoReset(ws)
    ensures var all := Zeros(s.count) + Accepted(ws, s.last);
      var r := ServeAll(Serve(s, reset), ws);
      r.regs == Committed(all, s.regs.(ctrl := WithPrgMode3(s.regs.ctrl))) && Pending(r, Remaining(all))
  {
    hide Chosen, FiveBits, ShiftedIn, WithPrgMode3, Collected, Committed, Remaining;
    CollectedZeros(s.count);
    EveryFifthWrite(Serve(s, reset), Zeros(s.count), ws);
  }

  /** The group that was waiting is finished by so many writes, and their bits are the upper ones of the register. */
  lemma ResetFinishes(s: Serial, reset: SerialWrite, ws: seq<SerialWrite>)
    requires s.count < 5 && reset.Resets() && NoReset(ws) && Accepted(ws, s.last) == ws && |ws| == 5 - s.count
    ensures var r := ServeAll(Serve(s, reset), ws);
      && r.count == 0
      && r.regs == Chosen(s.regs.(ctrl := WithPrgMode3(s.regs.ctrl)), ws[4 - s.count].addr, FiveBits(Zeros(s.count) + ws))
  {
    hide Chosen, FiveBits, ShiftedIn, WithPrgMode3, Collected;
    ResetKeepsCount(s, reset, ws);
    var all := Zeros(s.count) + ws;
    assert all[..5] == all && all[5..] == [] && all[4] == ws[4 - s.count];
  }

  /** The five writes that a program sends after a reset load their register if nothing was waiting. */
  lemma FreshReset(s: Serial, reset: SerialWrite, ws: seq<SerialWrite>)
    requires s.count == 0 && reset.Resets() && NoReset(ws) && Accepted(ws, s.last) == ws && |ws| == 5
    ensures ServeAll(Serve(s, reset), ws).regs == Loaded(s, ws)
  {
    hide Chosen, FiveBits, ShiftedIn, WithPrgMode3, Collected;
    ResetKeepsCount(s, reset, ws);
    var all := Zeros(0) + ws;
    assert all == ws && all[..5] == ws && all[5..] == [];
  }

  /** The registers that five writes are meant to leave behind a reset. */
  function Loaded(s: Serial, ws: seq<SerialWrite>): Registers
    requires |ws| == 5
  {
    Chosen(s.regs.(ctrl := WithPrgMode3(s.regs.ctrl)), ws[4].addr, FiveBits(ws))
  }

  /** Writes of 1 to $E000 on every other cycle. */
  function Ones(n: nat, cycle: nat): (ws: seq<SerialWrite>)
    ensures |ws| == n && forall i :: 0 <= i < n ==> ws[i].addr == 0xE000 && ws[i].data == 1
  {
    if n == 0 then [] else [SerialWrite(0xE000, 1, cycle)] + Ones(n - 1, cycle + 2)
  }

  lemma {:induction false} OnesAccepted(n: nat, cycle: nat, last: int)
    requires last != cycle - 1
    ensures Accepted(Ones(n, cycle), last) == Ones(n, cycle)
    decreases n
  {
    if n > 0 {
      OnesAccepted(n - 1, cycle + 2, cycle);
    }
  }

  lemma LowBits(e: byte, f: byte, g: byte, h: byte)
    ensures Five(0, e, f, g, h) != Five(1, 1, 1, 1, 1)
    ensures !ResetBit(1)
  {
  }

  /** With a bit waiting, five ones do not load five ones. */
  lemma StaleReset(s: Serial, reset: SerialWrite, ws: seq<SerialWrite>)
    requires 0 < s.count < 5 && reset.Resets() && NoReset(ws) && Accepted(ws, s.last) == ws && |ws| == 5
    requires forall i :: 0 <= i < 5 ==> ws[i].addr == 0xE000 && ws[i].data == 1
    ensures ServeAll(Serve(s, reset), ws).regs != Loaded(s, ws)
  {
    hide Five, ShiftedIn, WithPrgMode3, Collected, Remaining, ResetBit;
    ResetKeepsCount(s, reset, ws);
    var all := Zeros(s.count) + ws;
    assert |all[5..]| < 5 && all[0].data == 0;
    assert all[4].addr == 0xE000;
    LowBits(all[1].data, all[2].data, all[3].data, all[4].data);
  }

  /**
   So five accepted writes after a reset, whatever they are, load their register as they are meant to if and
   only if nothing was waiting.
   */
  lemma ResetMeansFresh(s: Serial, reset: SerialWrite)
    requires s.count < 5 && reset.Resets()
    ensures (forall ws :: NoReset(ws) && Accepted(ws, s.last) == ws && |ws| == 5
              ==> ServeAll(Serve(s, reset), ws).regs == Loaded(s, ws))
       <==> s.count == 0
  {
    hide Serve, ServeAll, Accepted, Loaded, ResetBit;
    if s.count == 0 {
      forall ws | NoReset(ws) && Accepted(ws, s.last) == ws && |ws| == 5
        ensures ServeAll(Serve(s, reset), ws).regs == Loaded(s, ws)
      {
        FreshReset(s, reset, ws);
      }
    } else {
      var cycle := if s.last < 0 then 2 else s.last + 2;
      var ws := Ones(5, cycle);
      OnesAccepted(5, cycle, s.last);
      LowBits(0, 0, 0, 0);
      assert NoReset(ws);
      StaleReset(s, reset, ws);
    }
  }

  /** However many bits were waiting, as many wait again behind five writes. */
  lemma ResetKeepsWaiting(s: Serial, reset: SerialWrite, ws: seq<SerialWrite>)
    requires s.count < 5 && reset.Resets() && NoReset(ws) && Accepted(ws, s.last) == ws && |ws| == 5
    ensures ServeAll(Serve(s, reset), ws).count == s.count
  {
    hide Chosen, FiveBits, ShiftedIn, WithPrgMode3, Collected;
    ResetKeepsCount(s, reset, ws);
    var all := Zeros(s.count) + ws;
    assert |all[5..]| == s.count;
    assert Remaining(all) == Remaining(all[5..]) == all[5..];
  }

  // --- banks

  /** The last 16 KiB bank begins at `size - KB_16`. */
  function InBank(addr: nat): nat
    requires 0x8000 <= addr <= 0xFFFF
  {
    (addr - 0x8000) % KB_16
  }

  function PrgMode(ctrl: byte): byte { (ctrl >> 2) & 3 }
  function ChrMode(ctrl: byte): byte { (ctrl >> 4) & 1 }

  function Arranged(ctrl: byte): Arrangement {
    if ctrl & 3 == 0 then SingleScreenLower
    else if ctrl & 3 == 1 then SingleScreenUpper
    else if ctrl & 3 == 2 then Horizontal
    else Vertical
  }

  class Mmc1 {
    var shift: byte
    var shiftCount: nat
    var ctrlReg: byte
    var chrBank0: byte
    var chrBank1: byte
    var prgBank: byte
    var prgRomBankMode: byte
    var chrRomBankMode: byte
    var arrangement: Arrangement
    var lastShiftWrite: int
    const prgRam: array<byte>

    function View(): Serial
      reads this
    {
      Serial(shift, shiftCount, lastShiftWrite, Registers(ctrlReg, chrBank0, chrBank1, prgBank))
    }

    /** The cached modes decode the control register. */
    predicate Decoded()
      reads `ctrlReg, `prgRomBankMode, `chrRomBankMode, `arrangement
    {
      prgRomBankMode == PrgMode(ctrlReg) && chrRomBankMode == ChrMode(ctrlReg) && arrangement == Arranged(ctrlReg)
    }

    predicate Valid()
      reads this
    {
      shiftCount < 5 && Decoded()
    }

    constructor (prgRamSize: nat)
      ensures Valid() && fresh(prgRam) && prgRam.Length == prgRamSize
      ensures View() == Serial(0, 0, NEVER, Registers(0x0C, 0, 0, 0))
    {
      prgRam := new byte[prgRamSize](_ => 0);
      lastShiftWrite := NEVER;
      shift, shiftCount := 0, 0;
      ctrlReg, chrBank0, chrBank1, prgBank := 0x0C, 0, 0, 0;
      prgRomBankMode, chrRomBankMode, arrangement := 0, 0, SingleScreenLower;
      new;
      ProcessCtrlChange();
    }

    method ProcessCtrlChange()
      modifies `prgRomBankMode, `chrRomBankMode, `arrangement
      ensures Decoded()
    {
      var nametable := ctrlReg & 3;
      if nametable == 0 {
        arrangement := SingleScreenLower;
      } else if nametable == 1 {
        arrangement := SingleScreenUpper;
      } else if nametable == 2 {
        arrangement := Horizontal;
      } else {
        arrangement := Vertical;
      }
      prgRomBankMode := (ctrlReg >> 2) & 3;
      chrRomBankMode := (ctrlReg >> 4) & 1;
    }

    method SetCtrl(value: byte)
      modifies `ctrlReg, `prgRomBankMode, `chrRomBankMode, `arrangement
      ensures ctrlReg == value && Decoded()
    {
      ctrlReg := value;
      ProcessCtrlChange();
    }

    method CopyShift(addr: nat)
      requires 0x8000 <= addr <= 0xFFFF && Decoded()
      modifies `ctrlReg, `chrBank0, `chrBank1, `prgBank, `prgRomBankMode, `chrRomBankMode, `arrangement
      ensures View().regs == Chosen(old(View()).regs, addr, shift) && Decoded()
    {
      hide Decoded;
      if addr <= 0x9FFF {
        assert addr / 0x2000 == 4;
        SetCtrl(shift);
      } else if addr <= 0xBFFF {
        assert addr / 0x2000 == 5;
        chrBank0 := shift;
      } else if addr <= 0xDFFF {
        assert addr / 0x2000 == 6;
        chrBank1 := shift;
      } else {
        assert addr / 0x2000 == 7;
        prgBank := shift;
      }
    }

    /** A write to $4020-$FFFF: work RAM at $6000-$7FFF, the serial port above. */
    method Write(addr: nat, data: byte, cycle: nat)
      requires Valid() && 0x4020 <= addr <= 0xFFFF
      requires addr >= 0x8000 ==> SerialWrite(addr, data, cycle).Valid()
      modifies this, prgRam
      ensures Valid()
      ensures View() == if addr >= 0x8000 then Serve(old(View()), SerialWrite(addr, data, cycle)) else old(View())
      ensures prgRam[..] == if 0x6000 <= addr <= 0x7FFF && prgRam.Length > 0
                            then old(prgRam[..])[(addr - 0x6000) % prgRam.Length := data] else old(prgRam[..])
    {
      hide ResetBit, WithPrgMode3, ShiftedIn, PrgMode, ChrMode, Arranged, Chosen;
      if 0x6000 <= addr <= 0x7FFF && prgRam.Length > 0 {
        prgRam[(addr - 0x6000) % prgRam.Length] := data;
      }
      if addr >= 0x8000 {
        if ResetBit(data) {
          shift := 0;
          SetCtrl(WithPrgMode3(ctrlReg));
        } else {
          if lastShiftWrite != cycle - 1 {
            shift := ShiftedIn(shift, data);
            shiftCount := shiftCount + 1;
            if shiftCount == 5 {
              CopyShift(addr);
              shiftCount := 0;
              shift := 0;
            }
          }
          lastShiftWrite := cycle;
        }
      }
    }

    /** The offset into program ROM that an address reads, before it is reduced to the size of the ROM. */
    function GetPrgRomAddress(addr: nat): nat
      requires Valid() && 0x8000 <= addr <= 0xFFFF
      reads this
    {
      var offset := addr - 0x8000;
      var bank := Num(prgBank & 0xF);
      if prgRomBankMode <= 1 then 0x8000 * (bank / 2) + offset
      else if prgRomBankMode == 2 then
        if offset / KB_16 == 0 then offset else bank * KB_16 + offset
      else
        if offset / KB_16 == 0 then bank * KB_16 + offset else offset + 6 * KB_16
    }

    /** In mode 3 the upper half shows the last bank exactly for sizes that divide 128 KiB. */
    lemma Mode3LastBank(size: nat)
      requires Valid() && prgRomBankMode == 3 && size > 0 && size % KB_16 == 0
      ensures (forall addr :: 0xC000 <= addr <= 0xFFFF ==> GetPrgRomAddress(addr) % size == size - KB_16 + InBank(addr))
         <==> 0x20000 % size == 0
    {
      if 0x20000 % size == 0 {
        forall addr | 0xC000 <= addr <= 0xFFFF
          ensures GetPrgRomAddress(addr) % size == size - KB_16 + InBank(addr)
        {
          LastBank(size, 0x20000 / size, addr);
        }
      } else {
        assert GetPrgRomAddress(0xC000) == 0x1C000;
        NotLastBank(size);
        assert GetPrgRomAddress(0xC000) % size != size - KB_16 + InBank(0xC000);
      }
    }

    /** In mode 2 the upper half shows the bank behind the selected one, which is the same only in a ROM of one bank. */
    lemma Mode2OffByOne(size: nat, addr: nat)
      requires Valid() && prgRomBankMode == 2 && size > 0 && size % KB_16 == 0 && 0xC000 <= addr <= 0xFFFF
      ensures var bank := Num(prgBank & 0xF);
        && GetPrgRomAddress(addr) == (bank + 1) * KB_16 + InBank(addr)
        && (GetPrgRomAddress(addr) % size == (bank * KB_16 + InBank(addr)) % size <==> size == KB_16)
    {
      var a := Num(prgBank & 0xF) * KB_16 + InBank(addr);
      OneBankOn(size, a);
    }

    /** In modes 2 and 3 the switched lower half and the fixed lower half are where they should be. */
    lemma LowerHalf(addr: nat)
      requires Valid() && prgRomBankMode >= 2 && 0x8000 <= addr <= 0xBFFF
      ensures GetPrgRomAddress(addr) == InBank(addr) + if prgRomBankMode == 3 then Num(prgBank & 0xF) * KB_16 else 0
    {
    }
  }

  lemma LastBank(size: nat, n: nat, addr: nat)
    requires size > 0 && size % KB_16 == 0 && 0x20000 == n * size && 0xC000 <= addr <= 0xFFFF
    ensures (addr - 0x8000 + 6 * KB_16) % size == size - KB_16 + InBank(addr)
  {
    var o := addr - 0xC000;
    assert size >= KB_16 && n > 0;
    assert addr - 0x8000 + 6 * KB_16 == (n - 1) * size + (size - KB_16 + o) by {
      assert (n - 1) * size == n * size - size;
    }
    Remainder(addr - 0x8000 + 6 * KB_16, n - 1, size, size - KB_16 + o);
  }

  lemma AtLeast(a: int, b: int)
    requires b >= 0
    ensures a >= 1 ==> a * b >= b
    ensures a <= -1 ==> a * b <= -b
  {
    if a >= 1 {
      assert a * b == (a - 1) * b + b;
    } else if a <= -1 {
      assert a * b == (a + 1) * b - b;
    }
  }

  /** A remainder is the one number below the divisor. */
  lemma Remainder(x: nat, q: int, size: nat, r: nat)
    requires r < size && x == q * size + r
    ensures x % size == r
  {
    var p := x / size;
    assert x == p * size + x % size;
    assert (q - p) * size == x % size - r;
    AtLeast(q - p, size);
  }

  lemma NotLastBank(size: nat)
    requires size > 0 && size % KB_16 == 0 && 0x20000 % size != 0
    ensures 0x1C000 % size != size - KB_16
  {
    if 0x1C000 % size == size - KB_16 {
      var p := 0x1C000 / size;
      assert 0x1C000 == p * size + (size - KB_16);
      assert 0x20000 == (p + 1) * size + 0;
      Remainder(0x20000, p + 1, size, 0);
    }
  }

  lemma OneBankOn(size: nat, a: nat)
    requires size > 0 && size % KB_16 == 0
    ensures (a + KB_16) % size == a % size <==> size == KB_16
  {
    var p, r := a / size, a % size;
    assert a == p * size + r;
    assert size >= KB_16;
    if r + KB_16 < size {
      Remainder(a + KB_16, p, size, r + KB_16);
    } else {
      assert a + KB_16 == (p + 1) * size + (r + KB_16 - size) by {
        assert (p + 1) * size == p * size + size;
      }
      Remainder(a + KB_16, p + 1, size, r + KB_16 - size);
    }
  }
}
