/**
 Whole lines and frames of the PPU while rendering stays on and nothing writes to its registers: the
 scroll position at every line, and the background picture at every pixel.
 */
module PpuFrame {
  import opened Bits
  import opened PpuTiming
  import opened PpuScroll
  import opened PpuBackground
  import opened PpuModel

  /** `p` renders dot `dot` of line `line`. */
  ghost predicate At(p: Ppu, line: nat, dot: nat) {
    && p.Valid() && p.regs.Rendering()
    && p.time.scanline == line && p.time.dot == dot && p.time.Rendered()
  }

  lemma {:induction false} StepsAdd(p: Ppu, a: nat, b: nat, mem: Memory)
    requires p.Valid()
    ensures Steps(p, a + b, mem) == Steps(Steps(p, a, mem), b, mem)
  {
    hide Step;
    if b > 0 {
      StepsAdd(p, a, b - 1, mem);
    }
  }

  lemma OneStep(p: Ppu, mem: Memory)
    requires p.Valid()
    ensures Steps(p, 1, mem) == Step(p, mem) && Steps(p, 0, mem) == p
  {
    hide Step;
    assert Steps(p, 0, mem) == p;
  }

  /** A dot of a rendered line before its end. */
  lemma DotOfLine(p: Ppu, line: nat, dot: nat, mem: Memory)
    requires At(p, line, dot) && dot < 339
    ensures At(Step(p, mem), line, dot + 1)
    ensures Step(p, mem).regs == p.regs
    ensures Step(p, mem).bg == BackgroundDot(p.bg, Entered(p.time), p.regs, NextSpriteAddress(p.(time := Entered(p.time))), mem)
    ensures Step(p, mem).time.evenFrame == Entered(p.time).evenFrame
  {
    hide BackgroundDot, SpriteDot, NextSpriteAddress, Latched, Pixel;
  }

  /** The frame parity only changes on the first dot of a frame. */
  lemma {:induction false} ParityKept(p: Ppu, line: nat, dot: nat, k: nat, mem: Memory)
    requires At(p, line, dot) && dot >= 1 && dot + k <= 339
    ensures At(Steps(p, k, mem), line, dot + k) && Steps(p, k, mem).time.evenFrame == p.time.evenFrame
    decreases k
  {
    hide Step, BackgroundDot, NextSpriteAddress;
    if k == 0 {
      OneStep(p, mem);
    } else {
      ParityKept(p, line, dot, k - 1, mem);
      DotOfLine(Steps(p, k - 1, mem), line, dot + k - 1, mem);
    }
  }

  lemma FetchStep(p: Ppu, line: nat, dot: nat, mem: Memory)
    requires At(p, line, dot) && FetchWindow(dot)
    ensures At(Step(p, mem), line, dot + 1)
    ensures Step(p, mem).regs == p.regs
    ensures Step(p, mem).bg == FetchDot(p.bg, dot, p.regs.ctrl, mem)
  {
    hide Step, PipelineDot, NextSpriteAddress, CopyHorizontal, CopyVertical;
    DotOfLine(p, line, dot, mem);
  }

  lemma {:induction false} FetchSteps(p: Ppu, line: nat, t: nat, k: nat, mem: Memory)
    requires At(p, line, 8 * t + 1) && k <= 8 && (t < 32 || t == 40 || t == 41)
    ensures var e := Steps(p, k, mem);
      && At(e, line, 8 * t + 1 + k) && e.regs == p.regs
      && e.bg == FetchDots(p.bg, t, k, p.regs.ctrl, mem)
  {
    hide Step, FetchDot;
    if k == 0 {
      OneStep(p, mem);
    } else {
      FetchSteps(p, line, t, k - 1, mem);
      FetchStep(Steps(p, k - 1, mem), line, 8 * t + k, mem);
    }
  }

  // --- between the lines

  /** What the reload of the horizontal bits, and on the pre-render line of the vertical bits, leaves. */
  function Reset(v: word, t: word, line: nat): word {
    if line == PRE_RENDER then CopyVertical(CopyHorizontal(v, t), t) else CopyHorizontal(v, t)
  }

  lemma CopiesSettle(v: word, t: word)
    ensures CopyHorizontal(CopyHorizontal(v, t), t) == CopyHorizontal(v, t)
    ensures var w := CopyVertical(CopyHorizontal(v, t), t); CopyVertical(w, t) == w
  {
  }

  /** The scroll position while the sprites of the next line are fetched. */
  function BlankScroll(v: word, t: word, line: nat, dot: nat): word {
    if dot == 257 then v
    else if line == PRE_RENDER && dot > 280 then CopyVertical(CopyHorizontal(v, t), t)
    else CopyHorizontal(v, t)
  }

  lemma BlankStep(p: Ppu, v: word, line: nat, dot: nat, mem: Memory)
    requires At(p, line, dot) && 257 <= dot <= 320
    requires p.bg.v == BlankScroll(v, p.regs.t, line, dot)
    ensures At(Step(p, mem), line, dot + 1)
    ensures Step(p, mem).regs == p.regs
    ensures Step(p, mem).bg.v == BlankScroll(v, p.regs.t, line, dot + 1)
  {
    hide Step, PipelineDot, NextSpriteAddress, CopyHorizontal, CopyVertical;
    DotOfLine(p, line, dot, mem);
    CopiesSettle(v, p.regs.t);
  }

  lemma {:induction false} BlankSteps(p: Ppu, k: nat, line: nat, mem: Memory)
    requires At(p, line, 257) && k <= 64
    ensures var e := Steps(p, k, mem);
      At(e, line, 257 + k) && e.regs == p.regs && e.bg.v == BlankScroll(p.bg.v, p.regs.t, line, 257 + k)
  {
    hide Step, BlankScroll;
    if k == 0 {
      OneStep(p, mem);
      assert BlankScroll(p.bg.v, p.regs.t, line, 257) == p.bg.v by { BlankStart(p.bg.v, p.regs.t, line); }
    } else {
      BlankSteps(p, k - 1, line, mem);
      BlankStep(Steps(p, k - 1, mem), p.bg.v, line, 256 + k, mem);
    }
  }

  lemma BlankStart(v: word, t: word, line: nat)
    ensures BlankScroll(v, t, line, 257) == v
    ensures BlankScroll(v, t, line, 321) == Reset(v, t, line)
  {
  }

  /** The two tiles fetched ahead at the end of a line. */
  lemma Prefetch(p: Ppu, line: nat, mem: Memory)
    requires At(p, line, 321)
    ensures var e := Steps(p, 16, mem);
      && At(e, line, 337) && e.regs == p.regs
      && AtSlot(e.bg, p.bg.v, 0, p.regs.ctrl, mem) && e.bg.v == Right(p.bg.v, 2)
  {
    hide Steps, Step, FetchDots, TileAt, Right, IncCoarseX, Holding, Loaded;
    var w, ctrl := p.bg.v, p.regs.ctrl;
    var m := Steps(p, 8, mem);
    FetchSteps(p, line, 40, 8, mem);
    FetchSteps(m, line, 41, 8, mem);
    StepsAdd(p, 8, 8, mem);
    var c := TileAt(mem, ctrl, Right(w, 0));
    RightNext(w, 0);
    RightNext(w, 1);
    SlotLoads(p.bg, 40, c, ctrl, mem);
    SlotLoads(m.bg, 41, c, ctrl, mem);
  }

  lemma IdleStep(p: Ppu, mem: Memory)
    requires p.Valid() && p.time.Rendered() && p.regs.Rendering()
    requires p.time.dot == 0 || p.time.dot >= 337
    ensures var e := Step(p, mem);
      && e.regs == p.regs && e.bg == p.bg.(latch := e.bg.latch)
      && e.time == Advanced(Entered(p.time), true)
  {
    hide PipelineDot, NextSpriteAddress, SpriteDot, Pixel, CopyHorizontal, CopyVertical;
  }

  function NextLine(line: nat): nat {
    if line == PRE_RENDER then 0 else line + 1
  }

  /** The dots from 337 to the first dot of the next line: five, or four when one is skipped. */
  function TurnDots(t: Timing): nat {
    if t.scanline == PRE_RENDER && !t.evenFrame then 4 else 5
  }

  /** The two dots before the one that may be skipped over. */
  lemma ToTurn(p: Ppu, line: nat, mem: Memory)
    requires At(p, line, 337)
    ensures var e := Steps(p, 2, mem);
      At(e, line, 339) && e.regs == p.regs && e.bg == p.bg.(latch := e.bg.latch) && e.time.evenFrame == p.time.evenFrame
  {
    hide Step, Steps;
    var q := Step(p, mem);
    IdleStep(p, mem);
    IdleStep(q, mem);
    OneStep(p, mem);
    OneStep(q, mem);
    StepsAdd(p, 1, 1, mem);
  }

  /** From dot 339 over the end of the line to the first dot of the next. */
  lemma OverTheEnd(p: Ppu, line: nat, mem: Memory)
    requires At(p, line, 339) && line != LAST_VISIBLE
    ensures var e := Steps(p, TurnDots(p.time) - 2, mem);
      At(e, NextLine(line), 1) && e.regs == p.regs && e.bg == p.bg.(latch := e.bg.latch)
  {
    hide Step, Steps;
    var q := Step(p, mem);
    IdleStep(p, mem);
    IdleStep(q, mem);
    OneStep(p, mem);
    OneStep(q, mem);
    StepsAdd(p, 1, 1, mem);
    if TurnDots(p.time) == 5 {
      IdleStep(Step(q, mem), mem);
      OneStep(Step(q, mem), mem);
      StepsAdd(p, 2, 1, mem);
    }
  }

  lemma Turn(p: Ppu, line: nat, mem: Memory)
    requires At(p, line, 337) && line != LAST_VISIBLE
    ensures var e := Steps(p, TurnDots(p.time), mem);
      At(e, NextLine(line), 1) && e.regs == p.regs && e.bg == p.bg.(latch := e.bg.latch)
  {
    hide Steps;
    ToTurn(p, line, mem);
    OverTheEnd(Steps(p, 2, mem), line, mem);
    StepsAdd(p, 2, TurnDots(p.time) - 2, mem);
  }

  // --- one visible line

  /** `p` is at the first dot of `line`, with the first two tiles of scroll position `w` in its registers. */
  ghost predicate LineReady(p: Ppu, line: nat, w: word, mem: Memory) {
    && At(p, line, 1) && line <= LAST_VISIBLE
    && AtSlot(p.bg, w, 0, p.regs.ctrl, mem) && p.bg.v == Right(w, 2)
  }

  lemma {:induction false} Slots(p: Ppu, line: nat, w: word, t: nat, mem: Memory)
    requires LineReady(p, line, w, mem) && t <= 31
    ensures var e := Steps(p, 8 * t, mem);
      && At(e, line, 8 * t + 1) && e.regs == p.regs
      && AtSlot(e.bg, w, t, p.regs.ctrl, mem) && e.bg.v == Right(w, t + 2)
  {
    hide Steps, Step, FetchDots, Right, AtSlot;
    if t == 0 {
      OneStep(p, mem);
    } else {
      Slots(p, line, w, t - 1, mem);
      var e := Steps(p, 8 * (t - 1), mem);
      FetchSteps(e, line, t - 1, 8, mem);
      SlotAdvances(e.bg, w, t - 1, p.regs.ctrl, mem);
      StepsAdd(p, 8 * (t - 1), 8, mem);
    }
  }

  /** Column `x` of the line is shown at its dot `x + 1`, and shows the picture. */
  lemma LineShowsPicture(p: Ppu, line: nat, w: word, x: nat, mem: Memory)
    requires LineReady(p, line, w, mem) && x < 256
    ensures var e := Steps(p, x, mem);
      && At(e, line, x + 1) && e.regs == p.regs
      && BackgroundPixel(e.bg, p.regs.fineX) == Picture(mem, p.regs.ctrl, p.regs.fineX, w, x)
  {
    hide Steps, Step, FetchDots, Right, AtSlot, BackgroundPixel, Picture;
    var t, k := x / 8, x % 8;
    Slots(p, line, w, t, mem);
    var e := Steps(p, 8 * t, mem);
    FetchSteps(e, line, t, k, mem);
    SlotShowsPicture(e.bg, w, t, k, p.regs.ctrl, p.regs.fineX, mem);
    StepsAdd(p, 8 * t, k, mem);
  }

  lemma LineEnds(p: Ppu, line: nat, w: word, mem: Memory)
    requires LineReady(p, line, w, mem)
    ensures var e := Steps(p, 256, mem);
      At(e, line, 257) && e.regs == p.regs && e.bg.v == IncY(Right(w, 34))
  {
    hide Steps, Step, FetchDots, Right, AtSlot, IncY;
    Slots(p, line, w, 31, mem);
    var e := Steps(p, 248, mem);
    FetchSteps(e, line, 31, 8, mem);
    SlotAdvances(e.bg, w, 31, p.regs.ctrl, mem);
    StepsAdd(p, 248, 8, mem);
  }

  /** From dot 257 of a line to the first dot of the next one. */
  lemma ToNextLine(p: Ppu, line: nat, mem: Memory)
    requires At(p, line, 257) && line != LAST_VISIBLE
    ensures var e := Steps(p, 80 + TurnDots(p.time), mem);
      && LineReady(e, NextLine(line), Reset(p.bg.v, p.regs.t, line), mem) && e.regs == p.regs
  {
    hide Steps, Step, Right, Reset, BlankScroll;
    BlankSteps(p, 64, line, mem);
    BlankStart(p.bg.v, p.regs.t, line);
    var q := Steps(p, 64, mem);
    Prefetch(q, line, mem);
    StepsAdd(p, 64, 16, mem);
    var r := Steps(p, 80, mem);
    ParityKept(p, line, 257, 80, mem);
    Turn(r, line, mem);
    StepsAdd(p, 80, TurnDots(r.time), mem);
  }

  // --- the whole frame

  /** The scroll position of the first line: all fifteen scroll bits from `t`. */
  function TopScroll(v: word, t: word): word {
    CopyVertical(CopyHorizontal(v, t), t)
  }

  lemma TopLine(v: word, t: word)
    ensures TopScroll(v, t) & 0x7FFF == t & 0x7FFF
    ensures CopyHorizontal(TopScroll(v, t), t) == TopScroll(v, t)
  {
  }

  lemma {:induction false} DownKeepsHorizontal(w: word, t: word, n: nat)
    requires CopyHorizontal(w, t) == w
    ensures CopyHorizontal(Down(w, n), t) == Down(w, n)
  {
    if n > 0 {
      DownKeepsHorizontal(w, t, n - 1);
      hide Down, IncY;
      DisjointSteps(Down(w, n - 1));
      KeepsHorizontal(Down(w, n - 1), IncY(Down(w, n - 1)), t);
    }
  }

  lemma KeepsHorizontal(v: word, u: word, t: word)
    requires u & 0x841F == v & 0x841F && CopyHorizontal(v, t) == v
    ensures CopyHorizontal(u, t) == u
  {
  }

  /** The dots from dot 257 of the pre-render line to the first dot of line `s`. */
  function DotsTo(t: Timing, s: nat): nat {
    80 + TurnDots(t) + 341 * s
  }

  lemma {:induction false} LineStarts(p: Ppu, s: nat, mem: Memory)
    requires At(p, PRE_RENDER, 257) && s <= LAST_VISIBLE
    ensures var e := Steps(p, DotsTo(p.time, s), mem);
      LineReady(e, s, Down(TopScroll(p.bg.v, p.regs.t), s), mem) && e.regs == p.regs
  {
    hide Steps, Step, Right, Down, CopyHorizontal, CopyVertical, LineReady, IncY;
    var w := TopScroll(p.bg.v, p.regs.t);
    if s == 0 {
      ToNextLine(p, PRE_RENDER, mem);
      assert Down(w, 0) == w by { DownSteps(w, 0); }
    } else {
      LineStarts(p, s - 1, mem);
      var m := DotsTo(p.time, s - 1);
      var q := Steps(p, m, mem);
      var u := Down(w, s - 1);
      LineEnds(q, s - 1, u, mem);
      StepsAdd(p, m, 256, mem);
      var r := Steps(p, m + 256, mem);
      ToNextLine(r, s - 1, mem);
      StepsAdd(p, m + 256, 80 + TurnDots(r.time), mem);
      LineStep(u, p.regs.t, 34);
      TopLine(p.bg.v, p.regs.t);
      DownKeepsHorizontal(w, p.regs.t, s - 1);
      DownSteps(w, s - 1);
    }
  }

  lemma DownSteps(w: word, n: nat)
    ensures Down(w, 0) == w && Down(w, n + 1) == IncY(Down(w, n))
  {
  }

  /** At the first dot of line `s`: horizontal bits of `t` moved on by two tiles, vertical bits `s` rows down. */
  lemma ScrollOfLine(p: Ppu, s: nat, mem: Memory)
    requires At(p, PRE_RENDER, 257) && s <= LAST_VISIBLE
    ensures var e := Steps(p, DotsTo(p.time, s), mem);
      At(e, s, 1) && e.bg.v == Right(Down(TopScroll(p.bg.v, p.regs.t), s), 2)
  {
    hide Steps, Right, Down, TopScroll;
    LineStarts(p, s, mem);
  }

  /**
   The background of a frame is the scrolled picture: whenever rendering is on from the pre-render line
   on, column `x` of line `s` shows the picture of that line at `x`, under the front sprite.
   */
  lemma FramePicture(p: Ppu, s: nat, x: nat, mem: Memory)
    requires At(p, PRE_RENDER, 257) && s <= LAST_VISIBLE && x < 256
    ensures var e := Steps(p, DotsTo(p.time, s) + x, mem);
      && At(e, s, x + 1)
      && var shown := Picture(mem, p.regs.ctrl, p.regs.fineX, Down(TopScroll(p.bg.v, p.regs.t), s), x);
      && BackgroundPixel(e.bg, e.regs.fineX) == shown
      && Step(e, mem).pixels[WIDTH * s + x]
         == Color(mem(PixelAddress(shown, FrontSprite(e.sprites.fifos))), p.regs.Emphasis())
  {
    hide Steps, Step, Right, Down, TopScroll, LineReady, Picture, BackgroundPixel, FrontSprite;
    LineStarts(p, s, mem);
    var m := DotsTo(p.time, s);
    var q := Steps(p, m, mem);
    LineShowsPicture(q, s, Down(TopScroll(p.bg.v, p.regs.t), s), x, mem);
    StepsAdd(p, m, x, mem);
    PixelStep(Steps(p, m + x, mem), s, x + 1, mem);
  }

  lemma PixelStep(e: Ppu, s: nat, dot: nat, mem: Memory)
    requires At(e, s, dot) && s <= LAST_VISIBLE && 1 <= dot <= 256
    ensures Step(e, mem).pixels[WIDTH * s + dot - 1]
         == Color(mem(PixelAddress(BackgroundPixel(e.bg, e.regs.fineX), FrontSprite(e.sprites.fifos))), e.regs.Emphasis())
  {
    hide BackgroundDot, SpriteDot, Latched, NextSpriteAddress, BackgroundPixel, FrontSprite, PixelAddress, Color;
  }
}
