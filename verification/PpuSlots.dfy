/**
 From the secondary object memory of one line to the sprite units of the next, over the dots of the
 whole PPU while rendering stays on.
 */
module PpuSlots {
  import opened Bits
  import opened PpuTiming
  import opened PpuScroll
  import opened PpuBackground
  import opened PpuSprites
  import opened PpuModel
  import opened PpuFrame
  import opened PpuUnits

  // --- one dot

  lemma SpritesOfDot(p: Ppu, line: nat, dot: nat, mem: Memory)
    requires At(p, line, dot) && dot < 339
    ensures var q := p.(time := Entered(p.time));
      && Step(p, mem).sprites == SpriteDot(q, mem)
      && Step(p, mem).eval == EvaluatorDot(p.eval, dot, LineByte(line), p.regs.Height(), line == PRE_RENDER)
      && (dot >= 1 ==> q == p)
  {
    hide BackgroundDot, SpriteDot, NextSpriteAddress, Latched, Pixel, EvaluatorDot;
  }

  /** The evaluator runs along a line. */
  lemma {:induction false} EvaluatorSteps(p: Ppu, line: nat, dot: nat, k: nat, mem: Memory)
    requires At(p, line, dot) && dot + k <= 339
    ensures var e := Steps(p, k, mem);
      && At(e, line, dot + k) && e.regs == p.regs
      && e.eval == EvaluatorDots(p.eval, dot, k, LineByte(line), p.regs.Height(), line == PRE_RENDER)
    decreases k
  {
    hide Step, EvaluatorDot;
    if k == 0 {
      OneStep(p, mem);
      assert EvaluatorDots(p.eval, dot, 0, LineByte(line), p.regs.Height(), line == PRE_RENDER) == p.eval;
    } else {
      EvaluatorSteps(p, line, dot, k - 1, mem);
      var q := Steps(p, k - 1, mem);
      DotOfLine(q, line, dot + k - 1, mem);
      SpritesOfDot(q, line, dot + k - 1, mem);
    }
  }

  // --- loading a unit

  /** What slot `i` of secondary object memory holds. */
  function SlotBytes(soam: seq<byte>, i: nat): (b: seq<byte>)
    requires |soam| == 32 && i < 8
    ensures |b| == 4
  {
    soam[4 * i..4 * i + 4]
  }

  function PatternSource(ctrl: byte, bytes: seq<byte>, line: nat): word
    requires |bytes| == 4
  {
    SpriteAddress(ctrl, bytes[1], bytes[2], LineByte(line), bytes[0])
  }

  /** The unit that shows the sprite with the bytes `bytes` on the line below `line`. */
  function UnitOf(bytes: seq<byte>, ctrl: byte, height: byte, line: nat, mem: Memory, counting: bool): SpriteFifo
    requires |bytes| == 4
  {
    var inRange := InRange(bytes[0], LineByte(line), height);
    var source := PatternSource(ctrl, bytes, line);
    SpriteFifo(PatternRow(mem(source), bytes[2], inRange), PatternRow(mem(source + 8), bytes[2], inRange),
               bytes[3], bytes[2], counting)
  }

  /** A unit after the first `k` of the eight dots that load it. */
  function UnitAfter(f: SpriteFifo, u: SpriteFifo, k: nat): SpriteFifo {
    f.(attribute := if k >= 2 then u.attribute else f.attribute,
       lo := if k >= 3 then u.lo else f.lo,
       hi := if k >= 4 then u.hi else f.hi,
       counter := if k >= 4 then u.counter else f.counter)
  }

  /** `e` is `k` dots into loading unit `i` as `u`; `q` is where the loading of the unit began. */
  ghost predicate Filling(e: Ppu, q: Ppu, line: nat, i: nat, k: nat, mem: Memory) {
    && At(e, line, 257 + 8 * i + k) && q.Valid() && i < 8 && k <= 8
    && e.regs == q.regs && e.eval.soam == q.eval.soam && e.eval.oam == q.eval.oam
    && ((i == 0 && k == 0) || e.eval.soamIndex == 4 * i + (if k == 8 then 4 else 0))
    && var bytes := SlotBytes(q.eval.soam, i);
    && (1 <= k < 8 ==> e.eval.spriteY == bytes[0])
    && (k == 3 ==> e.bg.addressBus == PatternSource(q.regs.ctrl, bytes, line))
    && var u := UnitOf(bytes, q.regs.ctrl, q.regs.Height(), line, mem, q.sprites.fifos[i].counting);
    && e.sprites.fifos == q.sprites.fifos[i := UnitAfter(q.sprites.fifos[i], u, k)]
  }

  lemma SlotAt(e: Evaluator, i: nat, k: nat)
    requires e.Valid() && i < 8 && k < 8
    requires (i == 0 && k == 0) || e.soamIndex == 4 * i
    ensures SlotIndex(e, 257 + 8 * i + k) == 4 * i && Phase(257 + 8 * i + k) == k
    ensures 4 * i % 32 == 4 * i && 4 * i / 4 % 8 == i
    ensures SlotBytes(e.soam, i)[0] == e.soam[4 * i] && SlotBytes(e.soam, i)[1] == e.soam[(4 * i + 1) % 256 % 32]
  {
  }

  /** The dot at phase `k` loads its part of the unit. */
  lemma PhaseLoads(f: SpriteFifo, u: SpriteFifo, soam: seq<byte>, i: nat, k: nat, inRange: bool, lo: byte, hi: byte)
    requires |soam| == 32 && i < 8 && k < 8
    requires u.attribute == SlotBytes(soam, i)[2] && u.counter == SlotBytes(soam, i)[3]
    requires k == 2 ==> u.lo == PatternRow(lo, u.attribute, inRange)
    requires k == 3 ==> u.hi == PatternRow(hi, u.attribute, inRange)
    ensures FetchUnit(UnitAfter(f, u, k), k, soam, 4 * i, inRange, lo, hi) == UnitAfter(f, u, k + 1)
  {
    hide PatternRow;
    assert (4 * i + 2) % 256 % 32 == 4 * i + 2 && (4 * i + 3) % 256 % 32 == 4 * i + 3;
  }

  lemma FetchIndices(e: Evaluator, line: byte, height: byte, preRender: bool, dot: nat)
    requires e.Valid() && 257 <= dot <= 320
    ensures var r, s := EvaluatorDot(e, dot, line, height, preRender), SlotIndex(e, dot);
      && r.oam == e.oam && r.soam == e.soam
      && r.spriteY == (if Phase(dot) == 0 then e.soam[s % 32] else e.spriteY)
      && r.soamIndex == if Phase(dot) == 7 then (s + 4) % 256 else s
  {
  }

  lemma SourceIs(e: Ppu, q: Ppu, line: nat, i: nat, k: nat, mem: Memory)
    requires Filling(e, q, line, i, k, mem) && 2 <= k < 8
    ensures NextSpriteAddress(e) == PatternSource(q.regs.ctrl, SlotBytes(q.eval.soam, i), line)
  {
    hide SpriteAddress, PatternRow, InRange, LineByte, SlotBytes, SlotIndex;
    SlotAt(e.eval, i, k);
  }

  lemma LoadingDot(e: Ppu, mem: Memory)
    requires e.Valid() && SpriteWindow(e.time.dot)
    ensures SpriteDot(e, mem)
         == LoadedUnits(e.sprites, Phase(e.time.dot), e.eval.soam, SlotIndex(e.eval, e.time.dot),
                        InRange(e.eval.spriteY, LineByte(e.time.scanline), e.regs.Height()),
                        mem(NextSpriteAddress(e)), mem(e.bg.addressBus + 8))
  {
    hide NextSpriteAddress, LoadedUnits, SlotIndex, InRange, LineByte, Registers.Height;
  }

  lemma FillUnits(e: Ppu, q: Ppu, line: nat, i: nat, k: nat, mem: Memory)
    requires Filling(e, q, line, i, k, mem) && k < 8
    ensures var u := UnitOf(SlotBytes(q.eval.soam, i), q.regs.ctrl, q.regs.Height(), line, mem, q.sprites.fifos[i].counting);
      SpriteDot(e, mem).fifos == q.sprites.fifos[i := UnitAfter(q.sprites.fifos[i], u, k + 1)]
  {
    hide SpriteAddress, PatternRow, InRange, LineByte, SlotBytes, UnitAfter, SlotIndex, FetchUnit, NextSpriteAddress,
      PatternSource, Registers.Height, SpriteDot, Phase;
    LoadingDot(e, mem);
    var bytes := SlotBytes(q.eval.soam, i);
    var f, u := q.sprites.fifos[i], UnitOf(bytes, q.regs.ctrl, q.regs.Height(), line, mem, q.sprites.fifos[i].counting);
    SlotAt(e.eval, i, k);
    if k >= 2 {
      SourceIs(e, q, line, i, k, mem);
    }
    PhaseLoads(f, u, q.eval.soam, i, k, InRange(e.eval.spriteY, LineByte(line), q.regs.Height()),
               mem(NextSpriteAddress(e)), mem(e.bg.addressBus + 8));
  }

  lemma BusOfDot(b: Background, t: Timing, regs: Registers, source: word, mem: Memory)
    requires SpriteWindow(t.dot)
    ensures BackgroundDot(b, t, regs, source, mem).addressBus == if Phase(t.dot) == 2 then source else b.addressBus
  {
    hide CopyHorizontal, CopyVertical;
  }

  lemma FillStep(e: Ppu, q: Ppu, line: nat, i: nat, k: nat, mem: Memory)
    requires Filling(e, q, line, i, k, mem) && k < 8
    ensures Filling(Step(e, mem), q, line, i, k + 1, mem)
  {
    hide Step, BackgroundDot, EvaluatorDot, SpriteAddress, PatternRow, InRange, LineByte, SlotBytes, UnitAfter,
      SlotIndex, Phase, FetchUnit, SpriteDot, NextSpriteAddress;
    var dot := 257 + 8 * i + k;
    DotOfLine(e, line, dot, mem);
    SpritesOfDot(e, line, dot, mem);
    SlotAt(e.eval, i, k);
    FetchIndices(e.eval, LineByte(line), e.regs.Height(), line == PRE_RENDER, dot);
    FillUnits(e, q, line, i, k, mem);
    BusOfDot(e.bg, e.time, e.regs, NextSpriteAddress(e), mem);
    if k == 2 {
      SourceIs(e, q, line, i, k, mem);
    }
  }

  lemma {:induction false} FillDots(q: Ppu, line: nat, i: nat, k: nat, mem: Memory)
    requires At(q, line, 257 + 8 * i) && i < 8 && k <= 8
    requires i == 0 || q.eval.soamIndex == 4 * i
    ensures Filling(Steps(q, k, mem), q, line, i, k, mem)
    decreases k
  {
    hide Step, Filling;
    if k == 0 {
      OneStep(q, mem);
      FillStart(q, line, i, mem);
    } else {
      FillDots(q, line, i, k - 1, mem);
      FillStep(Steps(q, k - 1, mem), q, line, i, k - 1, mem);
    }
  }

  lemma FillStart(q: Ppu, line: nat, i: nat, mem: Memory)
    requires At(q, line, 257 + 8 * i) && i < 8
    requires i == 0 || q.eval.soamIndex == 4 * i
    ensures Filling(q, q, line, i, 0, mem)
  {
    hide UnitOf, SlotBytes, PatternSource;
    var f := q.sprites.fifos[i];
    assert q.sprites.fifos[i := f] == q.sprites.fifos;
  }

  /** Loaded from its slot, with the counting switch it had. */
  function FromSlot(p: Ppu, j: nat, line: nat, mem: Memory): SpriteFifo
    requires p.Valid() && j < 8
  {
    UnitOf(SlotBytes(p.eval.soam, j), p.regs.ctrl, p.regs.Height(), line, mem, p.sprites.fifos[j].counting)
  }

  ghost predicate Filled(e: Ppu, p: Ppu, line: nat, i: nat, mem: Memory) {
    && At(e, line, 257 + 8 * i) && p.Valid() && i <= 8
    && e.regs == p.regs && e.eval.soam == p.eval.soam && e.eval.oam == p.eval.oam
    && (i == 0 || e.eval.soamIndex == 4 * i)
    && forall j :: 0 <= j < 8 ==> e.sprites.fifos[j] == if j < i then FromSlot(p, j, line, mem) else p.sprites.fifos[j]
  }

  lemma FilledNext(e: Ppu, q: Ppu, p: Ppu, line: nat, i: nat, mem: Memory)
    requires i < 8 && Filled(q, p, line, i, mem) && Filling(e, q, line, i, 8, mem)
    ensures Filled(e, p, line, i + 1, mem)
  {
    hide UnitOf, SlotBytes, PatternSource, Registers.Height;
    UnitCounting(SlotBytes(q.eval.soam, i), q.regs.ctrl, q.regs.Height(), line, mem, q.sprites.fifos[i].counting);
  }

  lemma UnitCounting(bytes: seq<byte>, ctrl: byte, height: byte, line: nat, mem: Memory, counting: bool)
    requires |bytes| == 4
    ensures UnitOf(bytes, ctrl, height, line, mem, counting).counting == counting
  {
    hide InRange, PatternSource, PatternRow;
  }

  /** Dots 257 to 320 load every unit from its slot. */
  lemma {:induction false} FillSlots(p: Ppu, line: nat, i: nat, mem: Memory)
    requires At(p, line, 257) && i <= 8
    ensures Filled(Steps(p, 8 * i, mem), p, line, i, mem)
    decreases i
  {
    hide Step, Steps, Filling, FromSlot;
    if i == 0 {
      OneStep(p, mem);
    } else {
      FillSlots(p, line, i - 1, mem);
      var q := Steps(p, 8 * (i - 1), mem);
      FillDots(q, line, i - 1, 8, mem);
      StepsAdd(p, 8 * (i - 1), 8, mem);
      FilledNext(Steps(q, 8, mem), q, p, line, i - 1, mem);
    }
  }

  // --- before the line

  /** Nothing of the evaluator that matters to the next line changes behind dot 320. */
  lemma LateDot(p: Ppu, mem: Memory)
    requires p.Valid() && p.time.Rendered() && p.regs.Rendering() && p.time.dot >= 321
    ensures var e := Step(p, mem);
      && e.sprites == SpriteDot(p, mem) && e.eval.oam == p.eval.oam && e.eval.soam == p.eval.soam
      && e.regs == p.regs && e.time == Advanced(p.time, true)
  {
    hide BackgroundDot, SpriteDot, NextSpriteAddress, Latched, Pixel;
  }

  /** The units are those of `f`, counted down `k` times. */
  ghost predicate CountedFrom(e: Ppu, p: Ppu, k: nat) {
    && e.Valid() && p.Valid() && e.regs == p.regs && e.eval.oam == p.eval.oam && e.eval.soam == p.eval.soam
    && e.time.evenFrame == p.time.evenFrame
    && forall j :: 0 <= j < 8 ==> e.sprites.fifos[j] == CountedN(p.sprites.fifos[j], k)
  }

  lemma {:induction false} PrefetchCounts(p: Ppu, line: nat, k: nat, mem: Memory)
    requires At(p, line, 321) && k <= 16
    ensures At(Steps(p, k, mem), line, 321 + k) && CountedFrom(Steps(p, k, mem), p, k)
    decreases k
  {
    hide Step, CountedDown;
    if k == 0 {
      OneStep(p, mem);
    } else {
      PrefetchCounts(p, line, k - 1, mem);
      var q := Steps(p, k - 1, mem);
      LateDot(q, mem);
    }
  }

  /** Counting down starts again at dot 339. */
  ghost predicate Restarted(e: Ppu, p: Ppu) {
    && e.Valid() && p.Valid() && e.regs == p.regs && e.eval.oam == p.eval.oam && e.eval.soam == p.eval.soam
    && forall j :: 0 <= j < 8 ==> e.sprites.fifos[j] == p.sprites.fifos[j].(counting := true)
  }

  lemma TurnRestarts(p: Ppu, line: nat, mem: Memory)
    requires At(p, line, 337) && line != LAST_VISIBLE
    ensures var e := Steps(p, TurnDots(p.time) - 1, mem);
      At(e, NextLine(line), 0) && Restarted(e, p)
  {
    hide Step, Steps;
    var p1 := Step(p, mem);
    var p2 := Step(p1, mem);
    var p3 := Step(p2, mem);
    LateDot(p, mem);
    LateDot(p1, mem);
    LateDot(p2, mem);
    OneStep(p, mem);
    OneStep(p1, mem);
    OneStep(p2, mem);
    StepsAdd(p, 1, 1, mem);
    StepsAdd(p, 2, 1, mem);
    if TurnDots(p.time) == 5 {
      LateDot(p3, mem);
      OneStep(p3, mem);
      StepsAdd(p, 3, 1, mem);
    }
  }

  /** Unit `j` counts to its column, which it loses sixteen of if it was still counting. */
  ghost predicate ReadyUnit(f: SpriteFifo, u: SpriteFifo) {
    && f.counting && f.lo == u.lo && f.hi == u.hi && f.attribute == u.attribute
    && Num(f.counter) == Effective(Num(u.counter), u.counting)
  }

  /** From dot 257 to the start of the next line: every unit is loaded from its slot and counts. */
  lemma UnitsReady(p: Ppu, line: nat, mem: Memory)
    requires At(p, line, 257) && line != LAST_VISIBLE
    ensures var e := Steps(p, 79 + TurnDots(p.time), mem);
      && At(e, NextLine(line), 0) && e.regs == p.regs && e.eval.oam == p.eval.oam
      && forall j :: 0 <= j < 8 ==> ReadyUnit(e.sprites.fifos[j], FromSlot(p, j, line, mem))
  {
    hide Step, Steps, FromSlot, CountedN, Num;
    FillSlots(p, line, 8, mem);
    var q := Steps(p, 64, mem);
    PrefetchCounts(q, line, 16, mem);
    StepsAdd(p, 64, 16, mem);
    var r := Steps(p, 80, mem);
    ParityKept(p, line, 257, 80, mem);
    TurnRestarts(r, line, mem);
    StepsAdd(p, 80, TurnDots(r.time) - 1, mem);
    forall j | 0 <= j < 8
      ensures ReadyUnit(Steps(p, 79 + TurnDots(p.time), mem).sprites.fifos[j], FromSlot(p, j, line, mem))
    {
      Prepared(FromSlot(p, j, line, mem));
    }
  }

  // --- on the line

  /** The units of `e` have drawn `x` columns since `p`. */
  ghost predicate Lined(e: Ppu, p: Ppu, x: nat) {
    && e.Valid() && p.Valid()
    && forall j :: 0 <= j < 8 ==> e.sprites.fifos[j] == LinedN(p.sprites.fifos[j], x)
  }

  lemma LinedNext(e: Ppu, p: Ppu, x: nat, mem: Memory)
    requires Lined(e, p, x) && Drawn(e.time)
    ensures SpriteDot(e, mem).fifos == MapFifos(MapFifos(e.sprites.fifos, ShiftedOut), CountedDown)
    ensures forall j :: 0 <= j < 8 ==> SpriteDot(e, mem).fifos[j] == LinedN(p.sprites.fifos[j], x + 1)
  {
    hide ShiftedOut, CountedDown;
  }

  lemma LineStarts(p: Ppu, line: nat, mem: Memory)
    requires At(p, line, 0) && line <= LAST_VISIBLE
    ensures At(Steps(p, 1, mem), line, 1) && Lined(Steps(p, 1, mem), p, 0)
  {
    hide Step, ShiftedOut, CountedDown, LinedN, SpriteDot;
    OneStep(p, mem);
    DotOfLine(p, line, 0, mem);
    SpritesOfDot(p, line, 0, mem);
    FirstDotKeeps(p.(time := Entered(p.time)), mem);
    Unmoved(p);
  }

  lemma {:induction false} LineUnits(p: Ppu, line: nat, x: nat, mem: Memory)
    requires At(p, line, 0) && line <= LAST_VISIBLE && x <= 256
    ensures At(Steps(p, 1 + x, mem), line, 1 + x) && Lined(Steps(p, 1 + x, mem), p, x)
    decreases x
  {
    hide Step, ShiftedOut, CountedDown, LinedN, SpriteDot;
    var e := Steps(p, x, mem);
    if x == 0 {
      LineStarts(p, line, mem);
    } else {
      LineUnits(p, line, x - 1, mem);
      DotOfLine(e, line, x, mem);
      SpritesOfDot(e, line, x, mem);
      LinedNext(e, p, x - 1, mem);
    }
  }

  lemma Unmoved(p: Ppu)
    requires p.Valid()
    ensures forall j :: 0 <= j < 8 ==> LinedN(p.sprites.fifos[j], 0) == p.sprites.fifos[j]
  {
  }

  lemma FirstDotKeeps(p: Ppu, mem: Memory)
    requires p.Valid() && p.time.dot == 0
    ensures SpriteDot(p, mem) == p.sprites
  {
  }
}
