/** Every cell of the pixel buffer is drawn exactly once in a frame. */
module PpuPixels {
  import opened Bits
  import opened PpuTiming
  import opened PpuBackground
  import opened PpuModel

  /**
   A run of the PPU among the other components: between two dots anything may change except the dot
   counters and the pixel buffer, in particular every register and everything the bus answers.
   */
  ghost predicate Interleaved(run: seq<Ppu>, mems: seq<Memory>) {
    && |run| == |mems| + 1
    && (forall i {:trigger run[i]} :: 0 <= i < |run| ==> run[i].Valid())
    && (forall i {:trigger mems[i]} :: 0 <= i < |mems| ==>
          var next := Step(run[i], mems[i]);
          run[i + 1].time == next.time && run[i + 1].pixels == next.pixels)
  }

  /** The number of dots of a frame before the one that draws cell `c`. */
  function DotOfCell(c: nat): nat {
    341 * (c / WIDTH) + c % WIDTH + 1
  }

  /** The colour a dot draws. */
  function Drawing(p: Ppu, mem: Memory): word
    requires p.Valid()
  {
    Pixel(p.(time := Entered(p.time)), mem)
  }

  lemma StepTime(p: Ppu, mem: Memory)
    requires p.Valid()
    ensures Step(p, mem).time == Tick(p.time, p.regs.Rendering())
  {
    hide Advanced, Pixel, BackgroundDot, SpriteDot, NextSpriteAddress, Latched;
  }

  lemma StepPixels(p: Ppu, mem: Memory)
    requires p.Valid()
    ensures Step(p, mem).pixels == if Drawn(p.time) then p.pixels[Cell(p.time) := Drawing(p, mem)] else p.pixels
  {
    hide Advanced, Pixel, BackgroundDot, SpriteDot, NextSpriteAddress, Latched;
  }

  lemma {:induction false} Positions(run: seq<Ppu>, mems: seq<Memory>, i: nat)
    requires Interleaved(run, mems) && run[0].time.FrameStart()
    requires i < |run| && i <= FRAME_DOTS - 2
    ensures run[i].time.Position() == i
  {
    hide Step, Tick;
    if i > 0 {
      Positions(run, mems, i - 1);
      assert mems[i - 1] == mems[i - 1];
      StepTime(run[i - 1], mems[i - 1]);
      TickInside(run[i - 1].time, run[i - 1].regs.Rendering());
    }
  }

  /** At the last dot of a frame, or already at the first of the next. */
  lemma PositionOf(run: seq<Ppu>, mems: seq<Memory>, i: nat)
    requires Interleaved(run, mems) && run[0].time.FrameStart()
    requires i < |run| && i < FRAME_DOTS
    ensures run[i].time.Position() == i || (i == FRAME_DOTS - 1 && run[i].time.Position() == 0)
  {
    hide Step, Tick;
    if i <= FRAME_DOTS - 2 {
      Positions(run, mems, i);
    } else {
      Positions(run, mems, i - 1);
      assert mems[i - 1] == mems[i - 1];
      StepTime(run[i - 1], mems[i - 1]);
      LastDots(run[i - 1].time, run[i - 1].regs.Rendering());
    }
  }

  lemma CellDot(t: Timing, c: nat)
    requires t.Valid() && c < CELLS
    ensures Drawn(t) && Cell(t) == c <==> t.Position() == DotOfCell(c)
  {
    assert c == WIDTH * (c / WIDTH) + c % WIDTH;
    if Drawn(t) && Cell(t) == c {
      assert c / WIDTH == t.scanline;
    }
    if t.Position() == DotOfCell(c) {
      assert t.scanline == c / WIDTH;
    }
  }

  lemma DotsOfCells(c: nat)
    requires c < CELLS
    ensures 0 < DotOfCell(c) < 341 * 240
  {
    assert c / WIDTH <= 239;
  }

  lemma {:induction false} Kept(run: seq<Ppu>, mems: seq<Memory>, c: nat, i: nat)
    requires Interleaved(run, mems) && run[0].time.FrameStart()
    requires c < CELLS && DotOfCell(c) < i < |run| && i <= FRAME_DOTS
    ensures run[i].pixels[c] == Drawing(run[DotOfCell(c)], mems[DotOfCell(c)])
    decreases i
  {
    hide Step, Drawing, DotOfCell;
    var p, mem := run[i - 1], mems[i - 1];
    PositionOf(run, mems, i - 1);
    DotsOfCells(c);
    StepPixels(p, mem);
    CellDot(p.time, c);
    if i - 1 > DotOfCell(c) {
      Kept(run, mems, c, i - 1);
    }
  }

  lemma ColorBound(data: byte, emphasis: word)
    requires emphasis & 0xFFF8 == 0
    ensures Color(data, emphasis) < 512
  {
    assert Color(data, emphasis) & 0xFE00 == 0;
    hide Color;
  }

  lemma DrawingBound(p: Ppu, mem: Memory)
    requires p.Valid()
    ensures Drawing(p, mem) < 512
  {
    hide PixelAddress, BackgroundPixel, FrontSprite, Color;
    assert p.regs.Emphasis() & 0xFFF8 == 0;
    forall data: byte ensures Color(data, p.regs.Emphasis()) < 512 && Color(data, 0) < 512 {
      ColorBound(data, p.regs.Emphasis());
      ColorBound(data, 0);
    }
  }

  /**
   In a run over a frame, from its boundary to anywhere behind the last visible line, whatever the registers
   held at each dot, every cell of the buffer has been drawn at exactly one dot, in range, and still
   holds what that dot drew.
   */
  lemma EveryPixelOnce(run: seq<Ppu>, mems: seq<Memory>, c: nat)
    requires Interleaved(run, mems) && run[0].time.FrameStart()
    requires 341 * 240 <= |mems| <= FRAME_DOTS
    requires c < CELLS
    ensures DotOfCell(c) < |mems|
    ensures forall i :: 0 <= i < |mems| ==> (Drawn(run[i].time) && Cell(run[i].time) == c <==> i == DotOfCell(c))
    ensures run[|mems|].pixels[c] == Drawing(run[DotOfCell(c)], mems[DotOfCell(c)])
    ensures run[|mems|].pixels[c] < 512
  {
    hide Drawing, Step;
    DotsOfCells(c);
    forall i | 0 <= i < |mems|
      ensures Drawn(run[i].time) && Cell(run[i].time) == c <==> i == DotOfCell(c)
    {
      PositionOf(run, mems, i);
      CellDot(run[i].time, c);
    }
    Kept(run, mems, c, |mems|);
    DrawingBound(run[DotOfCell(c)], mems[DotOfCell(c)]);
  }
}
