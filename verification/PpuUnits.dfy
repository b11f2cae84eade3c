/** What one sprite unit puts out: it counts down to its column, and then shifts its eight pixels out. */
module PpuUnits {
  import opened Bits
  import opened PpuModel

  // --- shifting

  function DblByte(b: byte): byte { b << 1 }

  function DblByteN(b: byte, k: nat): byte
    decreases k
  {
    if k == 0 then b else DblByte(DblByteN(b, k - 1))
  }

  predicate Top(b: byte) { b & 0x80 != 0 }

  lemma {:induction false} DblBits(b: byte, k: nat, j: nat)
    requires k + j < 8
    ensures BitAt(DblByteN(b, k), j) == BitAt(b, k + j)
    decreases k
  {
    if k > 0 {
      DblBits(b, k - 1, j + 1);
      DblBit(DblByteN(b, k - 1), j);
    }
  }

  lemma DblBit(b: byte, j: nat)
    requires j < 7
    ensures BitAt(DblByte(b), j) == BitAt(b, j + 1)
  {
    if j < 2 {
      assert j == 0 || j == 1;
    } else if j < 4 {
      assert j == 2 || j == 3;
    } else {
      assert j == 4 || j == 5 || j == 6;
    }
  }

  lemma {:induction false} LowClear(b: byte, k: nat)
    requires 1 <= k <= 8
    ensures !BitAt(DblByteN(b, k), 7)
    ensures forall j :: 8 - k <= j < 8 ==> !BitAt(DblByteN(b, k), j)
    decreases k
  {
    hide DblByte, BitAt;
    var c := DblByteN(b, k - 1);
    assert !BitAt(DblByte(c), 7) by { LowBit(c); }
    if k > 1 {
      LowClear(b, k - 1);
    }
    forall j | 8 - k <= j < 8
      ensures !BitAt(DblByteN(b, k), j)
    {
      if j < 7 {
        DblBit(c, j);
      }
    }
  }

  lemma LowBit(b: byte)
    ensures !BitAt(DblByte(b), 7)
  {
  }

  lemma {:induction false} AllAway(b: byte, k: nat)
    requires k >= 8
    ensures DblByteN(b, k) == 0
    decreases k
  {
    if k == 8 {
      LowClear(b, 8);
      NoBits(DblByteN(b, 8));
    } else {
      AllAway(b, k - 1);
    }
  }

  lemma NoBits(b: byte)
    requires forall j :: 0 <= j < 8 ==> !BitAt(b, j)
    ensures b == 0
  {
    assert !BitAt(b, 0) && !BitAt(b, 1) && !BitAt(b, 2) && !BitAt(b, 3);
    assert !BitAt(b, 4) && !BitAt(b, 5) && !BitAt(b, 6) && !BitAt(b, 7);
  }

  lemma TopIsFirst(b: byte)
    ensures Top(b) == BitAt(b, 0)
  {
  }

  lemma NothingOnTop()
    ensures !Top(0)
  {
  }

  /** After `k` shifts a pattern row puts out its bit `k`, and nothing after its eight bits. */
  lemma TopAfter(b: byte, k: nat)
    ensures Top(DblByteN(b, k)) <==> k < 8 && BitAt(b, k)
  {
    hide DblByteN, Top, BitAt;
    if k < 8 {
      DblBits(b, k, 0);
      TopIsFirst(DblByteN(b, k));
    } else {
      AllAway(b, k);
      NothingOnTop();
    }
  }

  /** A mirrored row has its bits in the opposite order. */
  lemma MirroredRow(b: byte, k: nat)
    requires k < 8
    ensures BitAt(Reversed(b), k) == BitAt(b, 7 - k)
  {
    if k < 4 {
      assert k == 0 || k == 1 || k == 2 || k == 3;
    } else {
      assert k == 4 || k == 5 || k == 6 || k == 7;
    }
  }

  // --- counting

  /** A unit that is counting at dot 321 loses up to sixteen columns before its line starts. */
  function Effective(column: nat, counting: bool): nat {
    if !counting then column else if column <= 16 then 0 else column - 16
  }

  function CountedN(f: SpriteFifo, k: nat): SpriteFifo
    decreases k
  {
    if k == 0 then f else CountedDown(CountedN(f, k - 1))
  }

  lemma CountStep(f: SpriteFifo)
    ensures f.counting && f.counter != 0 ==> Num(f.counter) > 0 && Num(f.counter - 1) == Num(f.counter) - 1
    ensures f.counter == 0 <==> Num(f.counter) == 0
    ensures f.counter == 1 <==> Num(f.counter) == 1
  {
    assert Num(0) == 0 && Num(1) == 1;
    if f.counter != 0 {
      NumSucc(f.counter - 1);
    }
    hide Num;
    if Num(f.counter) == 0 || Num(f.counter) == 1 {
      NumOrder(f.counter, 0);
      NumOrder(0, f.counter);
      NumOrder(f.counter, 1);
      NumOrder(1, f.counter);
    }
  }

  lemma {:induction false} CountedIs(f: SpriteFifo, k: nat)
    ensures var r := CountedN(f, k);
      && r.lo == f.lo && r.hi == f.hi && r.attribute == f.attribute
      && (!f.counting || Num(f.counter) == 0 ==> r == f)
      && (f.counting && k < Num(f.counter) ==> r.counting && Num(r.counter) == Num(f.counter) - k)
      && (f.counting && 0 < Num(f.counter) <= k ==> !r.counting && r.counter == 0)
    decreases k
  {
    hide Num;
    if k > 0 {
      CountedIs(f, k - 1);
      CountStep(CountedN(f, k - 1));
      CountStep(f);
    }
  }

  /** The sixteen dots before a line, and its start. */
  lemma Prepared(f: SpriteFifo)
    ensures var r := CountedN(f, 16).(counting := true);
      Num(r.counter) == Effective(Num(f.counter), f.counting) && r.lo == f.lo && r.hi == f.hi && r.attribute == f.attribute
  {
    hide Num, CountedN;
    CountedIs(f, 16);
    CountStep(f);
    CountStep(CountedN(f, 16));
  }

  // --- a drawn line

  function LinedN(f: SpriteFifo, k: nat): SpriteFifo
    decreases k
  {
    if k == 0 then f else CountedDown(ShiftedOut(LinedN(f, k - 1)))
  }

  lemma {:induction false} LinedIs(f: SpriteFifo, k: nat)
    requires f.counting
    ensures var r, x := LinedN(f, k), Num(f.counter);
      && r.attribute == f.attribute
      && (x == 0 ==> r == f)
      && (k < x ==> r == f.(counter := r.counter) && Num(r.counter) == x - k)
      && (0 < x <= k ==> !r.counting && r.counter == 0 && r.lo == DblByteN(f.lo, k - x) && r.hi == DblByteN(f.hi, k - x))
    decreases k
  {
    hide Num;
    if k > 0 {
      LinedIs(f, k - 1);
      CountStep(LinedN(f, k - 1));
      CountStep(f);
    }
  }

  /** Pixel `k` of a pattern row. */
  function UnitPixel(lo: byte, hi: byte, k: nat): byte
    requires k < 8
  {
    (if BitAt(hi, k) then 2 else 0) | (if BitAt(lo, k) then 1 else 0)
  }

  lemma UnitPatternIs(f: SpriteFifo)
    ensures UnitPattern(f) == if f.counter == 0 && !f.counting then (if Top(f.hi) then 2 else 0) | (if Top(f.lo) then 1 else 0) else 0
  {
  }

  /**
   A unit that starts a line counting from column `x` shows its row at columns `x` to `x + 7` and
   nothing elsewhere; one that starts from column 0 shows nothing at all.
   */
  lemma UnitShows(f: SpriteFifo, k: nat)
    requires f.counting
    ensures var x := Num(f.counter);
      UnitPattern(LinedN(f, k)) == if 0 < x <= k < x + 8 then UnitPixel(f.lo, f.hi, k - x) else 0
  {
    hide UnitPattern, LinedN, Num, DblByteN, Top, BitAt;
    LinedIs(f, k);
    var r, x := LinedN(f, k), Num(f.counter);
    UnitPatternIs(r);
    CountStep(r);
    if 0 < x <= k {
      TopAfter(f.lo, k - x);
      TopAfter(f.hi, k - x);
      assert (0 as byte) | 0 == 0;
    }
  }

  /** It stops counting exactly if it started from another column than 0. */
  lemma StuckAtZero(f: SpriteFifo, k: nat)
    requires f.counting && k >= 255
    ensures LinedN(f, k).counting <==> Num(f.counter) == 0
  {
    hide Num, LinedN;
    LinedIs(f, k);
    ByteBound(f.counter);
  }

  lemma ByteBound(b: byte)
    ensures Num(b) <= 255
  {
  }
}
