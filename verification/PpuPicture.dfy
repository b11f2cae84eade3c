/**
 A frame as a picture: what every pixel shows, said in terms of the registers, of object memory and of
 what the bus answers, for a frame that is rendered throughout.
 */
module PpuPicture {
  import opened Bits
  import opened PpuTiming
  import opened PpuScroll
  import opened PpuBackground
  import opened PpuSprites
  import opened PpuModel
  import opened PpuFrame
  import opened PpuUnits
  import opened PpuSlots

  // --- the sprites of a line

  /** The bytes of the first eight sprites that cover line `l`. */
  function Chosen(oam: seq<byte>, l: nat, height: byte): (c: seq<byte>)
    requires |oam| == 256
    ensures |c| <= 32
  {
    var s := Selected(oam, 64, LineByte(l), height);
    if |s| <= 32 then s else s[..32]
  }

  predicate Shows(oam: seq<byte>, l: nat, height: byte, i: nat)
    requires |oam| == 256
  {
    4 * i + 4 <= |Chosen(oam, l, height)|
  }

  function SpriteOf(oam: seq<byte>, l: nat, height: byte, i: nat): (bytes: seq<byte>)
    requires |oam| == 256 && Shows(oam, l, height, i)
    ensures |bytes| == 4
  {
    Chosen(oam, l, height)[4 * i..4 * i + 4]
  }

  /** The column of the `i`-th sprite of a line; an unused unit has the last one. */
  function ColumnOf(oam: seq<byte>, l: nat, height: byte, i: nat): nat
    requires |oam| == 256
  {
    if Shows(oam, l, height, i) then Num(SpriteOf(oam, l, height, i)[3]) else 255
  }

  /** Unit `i` still counts when it is loaded behind line `l`: on that line it started from column 0. */
  predicate Lagging(oam: seq<byte>, l: nat, height: byte, i: nat)
    requires |oam| == 256
    decreases l, 0
  {
    l > 0 && StartColumn(oam, l - 1, height, i) == 0
  }

  /** The column from which unit `i` starts below line `l`. */
  function StartColumn(oam: seq<byte>, l: nat, height: byte, i: nat): nat
    requires |oam| == 256
    decreases l, 1
  {
    Effective(ColumnOf(oam, l, height, i), Lagging(oam, l, height, i))
  }

  /** The pixel that the `i`-th sprite of line `l` has at column `x` of the line below, 0 if none. */
  function SpritePattern(mem: Memory, regs: Registers, oam: seq<byte>, l: nat, i: nat, x: nat): byte
    requires |oam| == 256
  {
    var from := StartColumn(oam, l, regs.Height(), i);
    if Shows(oam, l, regs.Height(), i) && 0 < from <= x < from + 8 then
      var bytes := SpriteOf(oam, l, regs.Height(), i);
      var source := PatternSource(regs.ctrl, bytes, l);
      UnitPixel(PatternRow(mem(source), bytes[2], true), PatternRow(mem(source + 8), bytes[2], true), x - from)
    else 0
  }

  /** The first opaque sprite at column `x` of the line below `l`, from the `i`-th on. */
  function SpritePicture(mem: Memory, regs: Registers, oam: seq<byte>, l: nat, i: nat, x: nat): SpritePixel
    requires |oam| == 256
    decreases 8 - i
  {
    if i >= 8 then SpritePixel(0, 0)
    else
      var pattern := SpritePattern(mem, regs, oam, l, i, x);
      if pattern != 0 then SpritePixel(pattern, if Shows(oam, l, regs.Height(), i) then SpriteOf(oam, l, regs.Height(), i)[2] else 0)
      else SpritePicture(mem, regs, oam, l, i + 1, x)
  }

  /** The colour of column `x` of line `s`: the sprites of the line above, over the scrolled background. */
  function FramePixel(mem: Memory, regs: Registers, oam: seq<byte>, s: nat, x: nat): word
    requires |oam| == 256
  {
    var background := Picture(mem, regs.ctrl, regs.fineX, Down(regs.t, s), x);
    var sprite := if s == 0 then SpritePixel(0, 0) else SpritePicture(mem, regs, oam, s - 1, 0, x);
    Color(mem(PixelAddress(background, sprite)), regs.Emphasis())
  }

  // --- where a sprite is shown

  /** A unit starts from column 0, and so shows nothing, if its sprite is there, or if it lags and its sprite is near. */
  lemma StartsAtZero(oam: seq<byte>, l: nat, height: byte, i: nat)
    requires |oam| == 256
    ensures StartColumn(oam, l, height, i) == 0
       <==> ColumnOf(oam, l, height, i) == 0 || (Lagging(oam, l, height, i) && ColumnOf(oam, l, height, i) <= 16)
  {
    hide Lagging, ColumnOf;
  }

  /** On an earlier line unit `i` had a sprite in column 0, and since then on every line one within the first sixteen. */
  ghost predicate Blocked(oam: seq<byte>, l: nat, height: byte, i: nat)
    requires |oam| == 256
  {
    exists m: nat {:trigger ColumnOf(oam, m, height, i)} ::
      m < l && ColumnOf(oam, m, height, i) == 0 && NearSince(oam, m, l, height, i)
  }

  ghost predicate NearSince(oam: seq<byte>, m: nat, l: nat, height: byte, i: nat)
    requires |oam| == 256
  {
    forall j {:trigger ColumnOf(oam, j, height, i)} :: m < j < l ==> ColumnOf(oam, j, height, i) <= 16
  }

  /** Which units lag, read off object memory. */
  lemma {:induction false} LagsWhereBlocked(oam: seq<byte>, l: nat, height: byte, i: nat)
    requires |oam| == 256
    ensures Lagging(oam, l, height, i) <==> Blocked(oam, l, height, i)
    decreases l
  {
    hide ColumnOf, StartColumn;
    if l > 0 {
      LagsWhereBlocked(oam, l - 1, height, i);
      StartsAtZero(oam, l - 1, height, i);
      if Lagging(oam, l, height, i) {
        if ColumnOf(oam, l - 1, height, i) == 0 {
          assert NearSince(oam, l - 1, l, height, i);
        } else {
          var m: nat :| m < l - 1 && ColumnOf(oam, m, height, i) == 0 && NearSince(oam, m, l - 1, height, i);
          assert NearSince(oam, m, l, height, i);
        }
      }
      if Blocked(oam, l, height, i) {
        var m: nat :| m < l && ColumnOf(oam, m, height, i) == 0 && NearSince(oam, m, l, height, i);
        if m < l - 1 {
          assert NearSince(oam, m, l - 1, height, i);
          assert ColumnOf(oam, l - 1, height, i) <= 16;
        }
      }
    }
  }

  /** A sprite is shown from its own column exactly if that is not 0 and its unit is not blocked. */
  lemma OwnColumn(oam: seq<byte>, l: nat, height: byte, i: nat)
    requires |oam| == 256
    ensures 0 < StartColumn(oam, l, height, i) == ColumnOf(oam, l, height, i)
       <==> ColumnOf(oam, l, height, i) > 0 && !Blocked(oam, l, height, i)
    ensures Blocked(oam, l, height, i) ==>
              StartColumn(oam, l, height, i) == if ColumnOf(oam, l, height, i) <= 16 then 0 else ColumnOf(oam, l, height, i) - 16
  {
    hide Lagging, Blocked, ColumnOf;
    LagsWhereBlocked(oam, l, height, i);
  }

  /** The last byte of every selected sprite is the last byte of a sprite. */
  lemma {:induction false} ColumnsComeFrom(oam: seq<byte>, n: nat, line: byte, height: byte, k: nat)
    requires |oam| == 256 && n <= 64 && 4 * k + 4 <= |Selected(oam, n, line, height)|
    ensures exists j: nat :: j < n && Selected(oam, n, line, height)[4 * k + 3] == oam[4 * j + 3]
    decreases n
  {
    hide InRange;
    SelectedWhole(oam, n - 1, line, height);
    SelectedNext(oam, n - 1, line, height);
    var s, t := Selected(oam, n - 1, line, height), Selected(oam, n, line, height);
    if 4 * k + 4 <= |s| {
      ColumnsComeFrom(oam, n - 1, line, height, k);
      assert t[4 * k + 3] == s[4 * k + 3];
    } else {
      assert t[4 * k + 3] == oam[4 * (n - 1) + 3];
    }
  }

  /** If no sprite is in column 0, every sprite is shown at its own column on every line. */
  lemma {:induction false} NoneLags(oam: seq<byte>, l: nat, height: byte, i: nat)
    requires |oam| == 256 && forall j :: 0 <= j < 64 ==> oam[4 * j + 3] != 0
    ensures !Lagging(oam, l, height, i) && StartColumn(oam, l, height, i) == ColumnOf(oam, l, height, i) > 0
    decreases l
  {
    hide Selected, Num;
    if l > 0 {
      NoneLags(oam, l - 1, height, i);
    }
    if Shows(oam, l, height, i) {
      ColumnsComeFrom(oam, 64, LineByte(l), height, i);
      NotZero(SpriteOf(oam, l, height, i)[3]);
    }
  }

  lemma NotZero(b: byte)
    ensures b != 0 ==> Num(b) > 0
  {
    if b != 0 {
      Positive(b);
    }
  }

  /** The row of an in-range sprite that line `l` shows: counted from its top, or from its bottom if it is flipped. */
  lemma RowOfSprite(attribute: byte, y: byte, l: nat, tall: bool)
    requires l < 240 && InRange(y, LineByte(l), if tall then 16 else 8)
    ensures var h := if tall then 16 else 8;
      var row := Num(RowOffset(attribute, LineByte(l), y, if tall then 16 else 8));
      && row == (if attribute & 0x80 == 0 then l - Num(y) else h - 1 - (l - Num(y)))
      && 0 <= row < h
  {
    hide Num, InRange;
    var line, h: byte := LineByte(l), if tall then 16 else 8;
    InRangeMeans(y, l, tall);
    ByteOf(l);
    Covered(y, line, h);
    NumDifference(y, line);
    var d := Minus(line, y);
    TallEnough(d, h);
    NumDifference(d, Minus(h, 1));
    assert Num(7) == 7 && Num(15) == 15 by { RowCounts(); }
  }

  /**
   The pattern of a sprite: in eight rows, tile `id` of the table the control register selects; in sixteen, a pair
   of tiles of the table that bit 0 of `id` selects, the upper one for the rows 0 to 7.
   */
  lemma SourceOfSprite(ctrl: byte, bytes: seq<byte>, l: nat)
    requires |bytes| == 4 && InRange(bytes[0], LineByte(l), if ctrl & 0x20 == 0 then 8 else 16)
    ensures var tall, id := ctrl & 0x20 != 0, bytes[1];
      var row := RowOffset(bytes[2], LineByte(l), bytes[0], if tall then 16 else 8);
      PatternSource(ctrl, bytes, l)
      == if !tall then TileRowAddress(ctrl & 0x08 != 0, id, row)
         else if row < 8 then TileRowAddress(id & 1 != 0, id & 0xFE, row)
         else TileRowAddress(id & 1 != 0, id | 1, row - 8)
  {
    hide InRange, LineByte, RowOffset;
    var tall := ctrl & 0x20 != 0;
    var row := RowOffset(bytes[2], LineByte(l), bytes[0], if tall then 16 else 8);
    RowInside(bytes[2], bytes[0], LineByte(l), if tall then 16 else 8);
    if tall {
      TallSource(bytes[1], row);
    } else {
      ShortSource(ctrl, bytes[1], row);
    }
  }

  /** Row `row` of tile `id`: sixteen bytes a tile, 256 tiles a table. */
  function TileRowAddress(upper: bool, id: byte, row: byte): word {
    (if upper then 0x1000 else 0) | ((id as word) << 4) | (row as word)
  }

  lemma RowInside(attribute: byte, y: byte, line: byte, height: byte)
    requires InRange(y, line, height) && (height == 8 || height == 16)
    ensures RowOffset(attribute, line, y, height) < height
  {
    FromBottom(line - y, height);
  }

  lemma FromBottom(d: byte, height: byte)
    requires d < height && (height == 8 || height == 16)
    ensures (height - 1) - d < height
  {
    if height == 8 {
      assert 7 - d < 8;
    } else {
      assert 15 - d < 16;
    }
  }

  lemma ShortSource(ctrl: byte, id: byte, row: byte)
    requires row < 8
    ensures (((ctrl & 0x8) as word) << 9) + (id as word) * 16 + ((row & 7) as word) == TileRowAddress(ctrl & 0x08 != 0, id, row)
  {
  }

  lemma TallSource(id: byte, row: byte)
    requires row < 16
    ensures row < 8 ==>
      (((id & 1) as word) << 12) + ((id & 0xFE) as word) * 16 + ((row & 7) as word) == TileRowAddress(id & 1 != 0, id & 0xFE, row)
    ensures row >= 8 ==>
      (((id & 1) as word) << 12) + (((id & 0xFE) as word) + 1) * 16 + ((row & 7) as word)
      == TileRowAddress(id & 1 != 0, id | 1, row - 8)
  {
  }

  lemma RowCounts()
    ensures Num(7) == 7 && Num(15) == 15
  {
  }

  lemma Covered(y: byte, line: byte, height: byte)
    requires InRange(y, line, height)
    ensures Le(y, line) && Less(Minus(line, y), height)
  {
  }

  lemma TallEnough(d: byte, h: byte)
    requires Less(d, h)
    ensures Le(d, Minus(h, 1))
  {
  }

  // --- slots and sprites

  lemma {:induction false} SelectedWhole(oam: seq<byte>, n: nat, line: byte, height: byte)
    requires |oam| == 256 && n <= 64
    ensures |Selected(oam, n, line, height)| % 4 == 0
    ensures forall k {:trigger Selected(oam, n, line, height)[4 * k]} :: 0 <= 4 * k < |Selected(oam, n, line, height)| ==>
              InRange(Selected(oam, n, line, height)[4 * k], line, height)
    decreases n
  {
    hide InRange;
    if n > 0 {
      SelectedWhole(oam, n - 1, line, height);
      SelectedNext(oam, n - 1, line, height);
      var s, t := Selected(oam, n - 1, line, height), Selected(oam, n, line, height);
      forall k | 0 <= 4 * k < |t|
        ensures InRange(t[4 * k], line, height)
      {
        if 4 * k < |s| {
          assert t[4 * k] == s[4 * k];
        } else {
          assert 4 * k == |s| && t[4 * k] == oam[4 * (n - 1)];
        }
      }
    }
  }

  lemma LastLine(l: nat)
    requires l <= 239
    ensures LineByte(l) < 0xFF
  {
    ByteOf(l);
    NumOrder(LineByte(l), 0xFF);
    assert Num(0xFF) == 255;
  }

  lemma UnusedOut(y: byte, line: byte, height: byte)
    requires Unused(y, line, height) && line < 0xFF
    ensures !InRange(y, line, height)
  {
  }

  /** A slot holds its sprite, or a sprite that is nowhere on the line and in the last column. */
  lemma SlotHolds(soam: seq<byte>, oam: seq<byte>, l: nat, height: byte, i: nat)
    requires |oam| == 256 && l <= 239 && i < 8
    requires Evaluated(soam, Selected(oam, 64, LineByte(l), height), LineByte(l), height)
    ensures if Shows(oam, l, height, i) then
              SlotBytes(soam, i) == SpriteOf(oam, l, height, i) && InRange(SpriteOf(oam, l, height, i)[0], LineByte(l), height)
            else !InRange(SlotBytes(soam, i)[0], LineByte(l), height) && SlotBytes(soam, i)[3] == 0xFF
  {
    hide InRange, LineByte, Selected, Unused, Evaluated;
    if Shows(oam, l, height, i) {
      SlotUsed(soam, oam, l, height, i);
    } else {
      SlotUnused(soam, oam, l, height, i);
    }
  }

  lemma SlotUsed(soam: seq<byte>, oam: seq<byte>, l: nat, height: byte, i: nat)
    requires |oam| == 256 && i < 8 && Shows(oam, l, height, i)
    requires Evaluated(soam, Selected(oam, 64, LineByte(l), height), LineByte(l), height)
    ensures SlotBytes(soam, i) == SpriteOf(oam, l, height, i)
    ensures InRange(SpriteOf(oam, l, height, i)[0], LineByte(l), height)
  {
    hide InRange, LineByte, Selected, Unused;
    var s, c := Selected(oam, 64, LineByte(l), height), Chosen(oam, l, height);
    SelectedWhole(oam, 64, LineByte(l), height);
    assert 4 * i + 4 <= |c| <= |soam| && soam[..|c|] == c;
    assert soam[4 * i..4 * i + 4] == soam[..|c|][4 * i..4 * i + 4];
    assert SpriteOf(oam, l, height, i)[0] == c[4 * i] == s[4 * i];
  }

  lemma SlotUnused(soam: seq<byte>, oam: seq<byte>, l: nat, height: byte, i: nat)
    requires |oam| == 256 && l <= 239 && i < 8 && !Shows(oam, l, height, i)
    requires Evaluated(soam, Selected(oam, 64, LineByte(l), height), LineByte(l), height)
    ensures !InRange(SlotBytes(soam, i)[0], LineByte(l), height) && SlotBytes(soam, i)[3] == 0xFF
  {
    hide InRange, LineByte, Selected, Unused;
    var m := |Chosen(oam, l, height)|;
    SelectedWhole(oam, 64, LineByte(l), height);
    assert m % 4 == 0 && 4 * i >= m;
    LastLine(l);
    assert Unused(soam[4 * i], LineByte(l), height) by { ClearUnused(LineByte(l), height); }
    UnusedOut(soam[4 * i], LineByte(l), height);
  }

  lemma ClearUnused(line: byte, height: byte)
    ensures Unused(0xFF, line, height)
  {
  }

  // --- the units of a line

  /** The units at the start of the line below `l`. */
  ghost predicate Loaded(e: Ppu, oam: seq<byte>, l: nat, mem: Memory)
    requires |oam| == 256
  {
    && e.Valid()
    && forall i :: 0 <= i < 8 ==> LoadedUnit(e.sprites.fifos[i], e.regs, oam, l, i, mem)
  }

  ghost predicate LoadedUnit(f: SpriteFifo, regs: Registers, oam: seq<byte>, l: nat, i: nat, mem: Memory)
    requires |oam| == 256
  {
    && f.counting && Num(f.counter) == StartColumn(oam, l, regs.Height(), i)
    && if Shows(oam, l, regs.Height(), i) then
         var bytes := SpriteOf(oam, l, regs.Height(), i);
         var source := PatternSource(regs.ctrl, bytes, l);
         && f.lo == PatternRow(mem(source), bytes[2], true) && f.hi == PatternRow(mem(source + 8), bytes[2], true)
         && f.attribute == bytes[2]
       else f.lo == 0 && f.hi == 0
  }

  lemma UnitLoads(p: Ppu, f: SpriteFifo, l: nat, i: nat, mem: Memory)
    requires p.Valid() && l <= 239 && i < 8
    requires var line, h := LineByte(l), p.regs.Height(); Evaluated(p.eval.soam, Selected(p.eval.oam, 64, line, h), line, h)
    requires p.sprites.fifos[i].counting == Lagging(p.eval.oam, l, p.regs.Height(), i)
    requires ReadyUnit(f, FromSlot(p, i, l, mem))
    ensures LoadedUnit(f, p.regs, p.eval.oam, l, i, mem)
  {
    hide Evaluated, LineByte, InRange, PatternSource, Registers.Height, Shows, SpriteOf, Lagging, Selected, SlotBytes,
      Num;
    SlotHolds(p.eval.soam, p.eval.oam, l, p.regs.Height(), i);
    assert Num(0xFF) == 255 by { LastByte(); }
  }

  lemma LastByte()
    ensures Num(0xFF) == 255
  {
  }

  /** What a loaded unit puts out at column `x`. */
  lemma UnitDraws(f: SpriteFifo, regs: Registers, oam: seq<byte>, l: nat, i: nat, x: nat, mem: Memory)
    requires |oam| == 256 && LoadedUnit(f, regs, oam, l, i, mem)
    ensures UnitPattern(LinedN(f, x)) == SpritePattern(mem, regs, oam, l, i, x)
    ensures Shows(oam, l, regs.Height(), i) ==> LinedN(f, x).attribute == SpriteOf(oam, l, regs.Height(), i)[2]
  {
    hide UnitPattern, LinedN, PatternSource, PatternRow, Registers.Height, Shows, SpriteOf, Num, StartColumn, UnitPixel;
    UnitShows(f, x);
    LinedIs(f, x);
    if 0 < Num(f.counter) <= x < Num(f.counter) + 8 {
      BlankRow(x - Num(f.counter));
    }
  }

  lemma BlankRow(k: nat)
    requires k < 8
    ensures UnitPixel(0, 0, k) == 0
  {
  }

  lemma {:induction false} UnitsDraw(fifos: seq<SpriteFifo>, e: Ppu, oam: seq<byte>, l: nat, i: nat, x: nat, mem: Memory)
    requires |oam| == 256 && Loaded(e, oam, l, mem) && |fifos| == 8 && i <= 8
    requires forall j :: 0 <= j < 8 ==> fifos[j] == LinedN(e.sprites.fifos[j], x)
    ensures FrontSprite(fifos[i..]) == SpritePicture(mem, e.regs, oam, l, i, x)
    decreases 8 - i
  {
    hide UnitPattern, LinedN, LoadedUnit, SpritePattern, Registers.Height, Shows, SpriteOf;
    if i < 8 {
      UnitsDraw(fifos, e, oam, l, i + 1, x, mem);
      UnitDraws(e.sprites.fifos[i], e.regs, oam, l, i, x, mem);
      assert fifos[i..][1..] == fifos[i + 1..];
      NothingShown(mem, e.regs, oam, l, i, x);
    }
  }

  lemma NothingShown(mem: Memory, regs: Registers, oam: seq<byte>, l: nat, i: nat, x: nat)
    requires |oam| == 256
    ensures !Shows(oam, l, regs.Height(), i) ==> SpritePattern(mem, regs, oam, l, i, x) == 0
  {
  }

  // --- from line to line

  ghost predicate AllCounting(e: Ppu) {
    e.Valid() && forall i :: 0 <= i < 8 ==> e.sprites.fifos[i].counting
  }

  /** At the start of line `l`: the units that will not finish counting are those that lag behind it. */
  ghost predicate LagKnown(e: Ppu, l: nat) {
    && AllCounting(e)
    && forall i :: 0 <= i < 8 ==> (Num(e.sprites.fifos[i].counter) == 0 <==> Lagging(e.eval.oam, l, e.regs.Height(), i))
  }

  /** The end of line `l`: its sprites are chosen, and the lagging units still count. */
  lemma LineChooses(p: Ppu, l: nat, mem: Memory)
    requires At(p, l, 0) && l <= LAST_VISIBLE && LagKnown(p, l)
    ensures var r, line, h := Steps(p, 257, mem), LineByte(l), p.regs.Height();
      && At(r, l, 257) && r.regs == p.regs && r.eval.oam == p.eval.oam
      && Evaluated(r.eval.soam, Selected(r.eval.oam, 64, line, h), line, h)
      && forall i :: 0 <= i < 8 ==> r.sprites.fifos[i].counting == Lagging(p.eval.oam, l, h, i)
  {
    hide Steps, Evaluated, EvaluatorDots, LinedN, Lagging, Num, LineByte, Selected;
    EvaluatorSteps(p, l, 0, 257, mem);
    EvaluationSelectsFirstEight(p.eval, LineByte(l), p.regs.Height());
    LineUnits(p, l, 256, mem);
    var r := Steps(p, 257, mem);
    forall i | 0 <= i < 8
      ensures r.sprites.fifos[i].counting == Lagging(p.eval.oam, l, p.regs.Height(), i)
    {
      StuckAtZero(p.sprites.fifos[i], 256);
    }
  }

  /** A visible line takes the sprites it chooses to the line below. */
  lemma LineLoads(p: Ppu, l: nat, mem: Memory)
    requires At(p, l, 0) && l < LAST_VISIBLE && LagKnown(p, l)
    ensures var e := Steps(p, 341, mem);
      && At(e, l + 1, 0) && e.regs == p.regs && e.eval.oam == p.eval.oam
      && Loaded(e, p.eval.oam, l, mem) && LagKnown(e, l + 1)
  {
    hide Steps, Evaluated, LineByte, Selected, LoadedUnit, Lagging, ReadyUnit, FromSlot, Num;
    LineChooses(p, l, mem);
    var r := Steps(p, 257, mem);
    UnitsReady(r, l, mem);
    StepsAdd(p, 257, 84, mem);
    var e := Steps(p, 341, mem);
    forall i | 0 <= i < 8
      ensures LoadedUnit(e.sprites.fifos[i], e.regs, p.eval.oam, l, i, mem)
      ensures e.sprites.fifos[i].counting
      ensures Num(e.sprites.fifos[i].counter) == 0 <==> Lagging(e.eval.oam, l + 1, e.regs.Height(), i)
    {
      UnitLoads(r, e.sprites.fifos[i], l, i, mem);
      UnitLags(e.sprites.fifos[i], e.regs, p.eval.oam, l, i, mem);
    }
  }

  lemma UnitLags(f: SpriteFifo, regs: Registers, oam: seq<byte>, l: nat, i: nat, mem: Memory)
    requires |oam| == 256 && LoadedUnit(f, regs, oam, l, i, mem)
    ensures f.counting
    ensures Num(f.counter) == 0 <==> Lagging(oam, l + 1, regs.Height(), i)
  {
    hide Num, PatternRow, PatternSource, Shows, SpriteOf;
  }

  // --- the first line

  /** A unit that draws nothing on the line, and finishes counting on it. */
  ghost predicate BlankUnit(f: SpriteFifo) {
    f.counting && f.lo == 0 && f.hi == 0 && Num(f.counter) >= 239
  }

  lemma UnitBlank(soam: seq<byte>, i: nat, ctrl: byte, height: byte, mem: Memory, counting: bool, f: SpriteFifo)
    requires |soam| == 32 && i < 8 && forall j {:trigger soam[j]} :: 0 <= j < 32 ==> soam[j] == 0xFF
    requires ReadyUnit(f, UnitOf(SlotBytes(soam, i), ctrl, height, PRE_RENDER, mem, counting))
    ensures BlankUnit(f)
  {
    hide PatternSource, Num, Reversed;
    var bytes := SlotBytes(soam, i);
    assert bytes[0] == 0xFF && bytes[3] == 0xFF;
    assert LineByte(PRE_RENDER) == 5;
    assert Num(0xFF) == 255 by { LastByte(); }
  }

  /** The pre-render line leads to a first line without sprites. */
  lemma FirstLine(p: Ppu, mem: Memory)
    requires At(p, PRE_RENDER, 0)
    ensures At(Steps(p, 257, mem), PRE_RENDER, 257) && Steps(p, 257, mem).regs == p.regs
    ensures TurnDots(Steps(p, 257, mem).time) == TurnDots(p.time)
    ensures var e := Steps(p, 336 + TurnDots(p.time), mem);
      && At(e, 0, 0) && e.regs == p.regs && e.eval.oam == p.eval.oam
      && forall i :: 0 <= i < 8 ==> BlankUnit(e.sprites.fifos[i])
  {
    hide Step, Steps, EvaluatorDots, BlankUnit, ReadyUnit, UnitOf, SlotBytes, Registers.Height;
    EvaluatorSteps(p, PRE_RENDER, 0, 257, mem);
    PreRenderClears(p.eval, LineByte(PRE_RENDER), p.regs.Height());
    var r := Steps(p, 257, mem);
    ParityOverPreRender(p, mem);
    UnitsReady(r, PRE_RENDER, mem);
    StepsAdd(p, 257, 79 + TurnDots(r.time), mem);
    var e := Steps(p, 336 + TurnDots(p.time), mem);
    forall i | 0 <= i < 8
      ensures BlankUnit(e.sprites.fifos[i])
    {
      UnitBlank(r.eval.soam, i, r.regs.ctrl, r.regs.Height(), mem, r.sprites.fifos[i].counting, e.sprites.fifos[i]);
    }
  }

  lemma ParityOverPreRender(p: Ppu, mem: Memory)
    requires At(p, PRE_RENDER, 0)
    ensures TurnDots(Steps(p, 257, mem).time) == TurnDots(p.time)
  {
    hide Step, Steps, BackgroundDot, NextSpriteAddress;
    OneStep(p, mem);
    DotOfLine(p, PRE_RENDER, 0, mem);
    var q := Steps(p, 1, mem);
    ParityKept(q, PRE_RENDER, 1, 256, mem);
    StepsAdd(p, 1, 256, mem);
  }

  // --- the whole frame

  /** The dots from the start of the pre-render line to the start of line `s`. */
  function DotsToLine(t: Timing, s: nat): nat {
    336 + TurnDots(t) + 341 * s
  }

  lemma {:induction false} LinesLoaded(p: Ppu, s: nat, mem: Memory)
    requires At(p, PRE_RENDER, 0) && s <= LAST_VISIBLE
    ensures var e := Steps(p, DotsToLine(p.time, s), mem);
      && At(e, s, 0) && e.regs == p.regs && e.eval.oam == p.eval.oam && LagKnown(e, s)
      && (s == 0 ==> forall i :: 0 <= i < 8 ==> BlankUnit(e.sprites.fifos[i]))
      && (s > 0 ==> Loaded(e, p.eval.oam, s - 1, mem))
    decreases s
  {
    hide Steps, BlankUnit, Loaded, TurnDots, Registers.Height;
    if s == 0 {
      FirstLine(p, mem);
      var e := Steps(p, DotsToLine(p.time, 0), mem);
      forall i | 0 <= i < 8
        ensures e.sprites.fifos[i].counting && Num(e.sprites.fifos[i].counter) > 0
      {
        BlankCounts(e.sprites.fifos[i]);
      }
    } else {
      LinesLoaded(p, s - 1, mem);
      LineLoads(Steps(p, DotsToLine(p.time, s - 1), mem), s - 1, mem);
      StepsAdd(p, DotsToLine(p.time, s - 1), 341, mem);
    }
  }

  lemma BlankCounts(f: SpriteFifo)
    requires BlankUnit(f)
    ensures f.counting && Num(f.counter) > 0
  {
  }

  lemma {:induction false} BlankDraws(fifos: seq<SpriteFifo>, from: seq<SpriteFifo>, x: nat)
    requires |fifos| == |from|
    requires forall j :: 0 <= j < |fifos| ==> fifos[j] == LinedN(from[j], x) && BlankUnit(from[j])
    ensures FrontSprite(fifos) == SpritePixel(0, 0)
    decreases |fifos|
  {
    hide UnitPattern, LinedN, BlankUnit;
    if fifos != [] {
      BlankDraws(fifos[1..], from[1..], x);
      BlankDrawsNothing(from[0], x);
    }
  }

  lemma BlankDrawsNothing(f: SpriteFifo, x: nat)
    requires BlankUnit(f)
    ensures UnitPattern(LinedN(f, x)) == 0
  {
    hide UnitPattern, LinedN, UnitPixel, Num;
    UnitShows(f, x);
    if Num(f.counter) <= x < Num(f.counter) + 8 {
      BlankRow(x - Num(f.counter));
    }
  }

  /** The front sprite at column `x` of line `s`. */
  lemma SpritesShown(p: Ppu, s: nat, x: nat, mem: Memory)
    requires At(p, PRE_RENDER, 0) && s <= LAST_VISIBLE && x < 256
    ensures var e := Steps(p, DotsToLine(p.time, s) + 1 + x, mem);
      && At(e, s, x + 1)
      && FrontSprite(e.sprites.fifos) == if s == 0 then SpritePixel(0, 0) else SpritePicture(mem, p.regs, p.eval.oam, s - 1, 0, x)
  {
    hide Steps, LinedN, FrontSprite, SpritePicture, LagKnown, BlankUnit, LoadedUnit, DotsToLine;
    LinesLoaded(p, s, mem);
    var n := DotsToLine(p.time, s);
    var q := Steps(p, n, mem);
    LineUnits(q, s, x, mem);
    StepsAdd(p, n, 1 + x, mem);
    var e := Steps(p, n + (1 + x), mem);
    if s == 0 {
      BlankDraws(e.sprites.fifos, q.sprites.fifos, x);
    } else {
      assert e.sprites.fifos[0..] == e.sprites.fifos;
      UnitsDraw(e.sprites.fifos, q, p.eval.oam, s - 1, 0, x, mem);
    }
  }

  // --- the fifteen bits of a scroll position

  /** The scroll position with its unused bit changed. */
  function Flipped(v: word): word { v ^ 0x8000 }

  lemma FlippedPixelRow(v: word)
    ensures NextPixelRow(Flipped(v)) == Flipped(NextPixelRow(v))
  {
  }

  lemma FlippedTileRow(v: word)
    ensures NextTileRow(Flipped(v)) == Flipped(NextTileRow(v))
  {
  }

  lemma FlippedEnd(v: word)
    ensures Flipped(v) & 0x7000 == v & 0x7000
  {
  }

  lemma FlippedIncY(v: word)
    ensures IncY(Flipped(v)) == Flipped(IncY(v))
  {
    hide NextTileRow, NextPixelRow, Flipped;
    FlippedPixelRow(v);
    FlippedTileRow(v);
    FlippedEnd(v);
  }

  lemma FlippedParts(v: word)
    ensures Column(Flipped(v)) == Column(v)
    ensures FineY(Flipped(v)) == FineY(v)
    ensures NameBits(Flipped(v)) == NameBits(v) && AttributeBits(Flipped(v)) == AttributeBits(v)
  {
  }

  lemma FlippedQuadrant(v: word)
    ensures Quadrant(Flipped(v)) == Quadrant(v)
  {
  }

  lemma FlippedColumn(v: word, c: word)
    ensures AtColumn(Flipped(v), c) == Flipped(AtColumn(v, c))
  {
  }

  lemma {:induction false} FlippedDown(v: word, n: nat)
    ensures Down(Flipped(v), n) == Flipped(Down(v, n))
  {
    hide Flipped, IncY;
    if n > 0 {
      FlippedDown(v, n - 1);
      FlippedIncY(Down(v, n - 1));
    }
  }

  lemma FlippedTile(mem: Memory, ctrl: byte, v: word)
    ensures TileAt(mem, ctrl, Flipped(v)) == TileAt(mem, ctrl, v)
  {
    hide Flipped, NameAddress, AttributeAddress, NameBits, AttributeBits, Quadrant, PaletteOf, FineY, PatternRowAddress;
    FlippedParts(v);
    FlippedQuadrant(v);
    AddressBits(v);
    AddressBits(Flipped(v));
  }

  /** The picture does not depend on the unused bit. */
  lemma FlippedPicture(mem: Memory, ctrl: byte, fineX: byte, v: word, x: nat)
    ensures Picture(mem, ctrl, fineX, Flipped(v), x) == Picture(mem, ctrl, fineX, v, x)
  {
    hide Flipped, Column, AtColumn, TileAt, Plus, Num, TilePixel;
    var j := (Num(fineX) + x) / 8;
    FlippedParts(v);
    FlippedColumn(v, Plus(Column(v), j));
    FlippedTile(mem, ctrl, Right(v, j));
  }

  lemma FlippedOrNot(v: word, t: word)
    ensures TopScroll(v, t) == t || TopScroll(v, t) == Flipped(t)
  {
  }

  lemma TopPicture(mem: Memory, regs: Registers, v: word, s: nat, x: nat)
    ensures Picture(mem, regs.ctrl, regs.fineX, Down(TopScroll(v, regs.t), s), x)
         == Picture(mem, regs.ctrl, regs.fineX, Down(regs.t, s), x)
  {
    hide Picture, Down, TopScroll, Flipped;
    FlippedOrNot(v, regs.t);
    FlippedDown(regs.t, s);
    FlippedPicture(mem, regs.ctrl, regs.fineX, Down(regs.t, s), x);
  }

  /**
   A rendered frame is its picture.  With rendering on from the start of the pre-render line, and nothing
   written, the pixel drawn at column `x` of line `s` is the one that the registers, object memory and the
   bus say: the first opaque one of the first eight sprites covering the line above, over or under the
   scrolled background.
   */
  lemma FrameShown(p: Ppu, s: nat, x: nat, mem: Memory)
    requires At(p, PRE_RENDER, 0) && s <= LAST_VISIBLE && x < 256
    ensures var e := Steps(p, DotsToLine(p.time, s) + 1 + x, mem);
      At(e, s, x + 1) && Step(e, mem).pixels[WIDTH * s + x] == FramePixel(mem, p.regs, p.eval.oam, s, x)
  {
    hide Step, Steps, FrontSprite, SpritePicture, Picture, Down, TopScroll, PixelAddress, Color, TurnDots,
      BackgroundPixel;
    SpritesShown(p, s, x, mem);
    FirstLine(p, mem);
    var q := Steps(p, 257, mem);
    FramePicture(q, s, x, mem);
    StepsAdd(p, 257, DotsTo(q.time, s) + x, mem);
    TopPicture(mem, p.regs, q.bg.v, s, x);
  }

  // --- what is never drawn

  /** The same object memory but for the tile and the attributes of sprites in column 0. */
  ghost predicate Alike(a: seq<byte>, b: seq<byte>)
    requires |a| == 256 && |b| == 256
  {
    forall k: nat {:trigger a[4 * k]} {:trigger b[4 * k]} :: k < 64 ==>
      && a[4 * k] == b[4 * k] && a[4 * k + 3] == b[4 * k + 3]
      && (a[4 * k + 3] != 0 ==> a[4 * k + 1] == b[4 * k + 1] && a[4 * k + 2] == b[4 * k + 2])
  }

  ghost predicate AlikeBytes(a: seq<byte>, b: seq<byte>)
    requires |a| == 4 && |b| == 4
  {
    a[3] == b[3] && (a[3] != 0 ==> a == b)
  }

  lemma {:induction false} SelectedAlike(a: seq<byte>, b: seq<byte>, n: nat, line: byte, height: byte)
    requires |a| == 256 && |b| == 256 && Alike(a, b) && n <= 64
    ensures var s, t := Selected(a, n, line, height), Selected(b, n, line, height);
      && |s| == |t|
      && forall k: nat {:trigger s[4 * k..4 * k + 4]} {:trigger t[4 * k..4 * k + 4]} :: 4 * k + 4 <= |s| ==>
           AlikeBytes(s[4 * k..4 * k + 4], t[4 * k..4 * k + 4])
    decreases n
  {
    hide InRange;
    if n > 0 {
      SelectedAlike(a, b, n - 1, line, height);
      SelectedNext(a, n - 1, line, height);
      SelectedNext(b, n - 1, line, height);
      SelectedWhole(a, n - 1, line, height);
      assert a[4 * (n - 1)] == b[4 * (n - 1)];
      var s, t := Selected(a, n, line, height), Selected(b, n, line, height);
      var u, v := Selected(a, n - 1, line, height), Selected(b, n - 1, line, height);
      assert AlikeBytes(SpriteBytes(a, n - 1), SpriteBytes(b, n - 1)) by { BytesAlike(a, b, n - 1); }
      forall k: nat | 4 * k + 4 <= |s|
        ensures AlikeBytes(s[4 * k..4 * k + 4], t[4 * k..4 * k + 4])
      {
        if 4 * k + 4 <= |u| {
          assert s[4 * k..4 * k + 4] == u[4 * k..4 * k + 4] && t[4 * k..4 * k + 4] == v[4 * k..4 * k + 4];
        } else {
          assert 4 * k == |u|;
          assert s[4 * k..4 * k + 4] == SpriteBytes(a, n - 1) && t[4 * k..4 * k + 4] == SpriteBytes(b, n - 1);
        }
      }
    }
  }

  lemma BytesAlike(a: seq<byte>, b: seq<byte>, k: nat)
    requires |a| == 256 && |b| == 256 && Alike(a, b) && k < 64
    ensures AlikeBytes(SpriteBytes(a, k), SpriteBytes(b, k))
  {
    var s, t := SpriteBytes(a, k), SpriteBytes(b, k);
    assert a[4 * k] == b[4 * k];
    assert s[0] == a[4 * k] && s[1] == a[4 * k + 1] && s[2] == a[4 * k + 2] && s[3] == a[4 * k + 3];
    assert t[0] == b[4 * k] && t[1] == b[4 * k + 1] && t[2] == b[4 * k + 2] && t[3] == b[4 * k + 3];
  }

  lemma ShowsAlike(a: seq<byte>, b: seq<byte>, l: nat, height: byte, i: nat)
    requires |a| == 256 && |b| == 256 && Alike(a, b)
    ensures Shows(a, l, height, i) <==> Shows(b, l, height, i)
    ensures Shows(a, l, height, i) ==> AlikeBytes(SpriteOf(a, l, height, i), SpriteOf(b, l, height, i))
    ensures ColumnOf(a, l, height, i) == ColumnOf(b, l, height, i)
  {
    hide Alike, Selected, LineByte, Num;
    SelectedAlike(a, b, 64, LineByte(l), height);
    var s, t := Selected(a, 64, LineByte(l), height), Selected(b, 64, LineByte(l), height);
    if Shows(a, l, height, i) {
      SpriteSelected(a, l, height, i);
      SpriteSelected(b, l, height, i);
      assert AlikeBytes(s[4 * i..4 * i + 4], t[4 * i..4 * i + 4]);
    }
  }

  lemma SpriteSelected(oam: seq<byte>, l: nat, height: byte, i: nat)
    requires |oam| == 256 && Shows(oam, l, height, i)
    ensures var s := Selected(oam, 64, LineByte(l), height);
      4 * i + 4 <= |s| && SpriteOf(oam, l, height, i) == s[4 * i..4 * i + 4]
  {
    hide Selected, LineByte;
    var s, c := Selected(oam, 64, LineByte(l), height), Chosen(oam, l, height);
    assert 4 * i + 4 <= |c| <= |s| && s[..|c|] == c;
    assert s[4 * i..4 * i + 4] == s[..|c|][4 * i..4 * i + 4];
  }

  lemma {:induction false} StartAlike(a: seq<byte>, b: seq<byte>, l: nat, height: byte, i: nat)
    requires |a| == 256 && |b| == 256 && Alike(a, b)
    ensures StartColumn(a, l, height, i) == StartColumn(b, l, height, i)
    decreases l
  {
    hide Alike, ColumnOf;
    ShowsAlike(a, b, l, height, i);
    if l > 0 {
      StartAlike(a, b, l - 1, height, i);
    }
  }

  lemma PatternAlike(mem: Memory, regs: Registers, a: seq<byte>, b: seq<byte>, l: nat, i: nat, x: nat)
    requires |a| == 256 && |b| == 256 && Alike(a, b)
    ensures SpritePattern(mem, regs, a, l, i, x) == SpritePattern(mem, regs, b, l, i, x)
    ensures SpritePattern(mem, regs, a, l, i, x) != 0 ==>
      Shows(a, l, regs.Height(), i) && SpriteOf(a, l, regs.Height(), i) == SpriteOf(b, l, regs.Height(), i)
  {
    hide Alike, Shows, SpriteOf, PatternSource, PatternRow, UnitPixel, Lagging, Num, Registers.Height;
    var h := regs.Height();
    StartAlike(a, b, l, h, i);
    ShowsAlike(a, b, l, h, i);
    StartsAtZero(a, l, h, i);
    if Shows(a, l, h, i) && StartColumn(a, l, h, i) > 0 {
      assert Num(0) == 0 by { NumConstants(); }
    }
  }

  lemma {:induction false} SpritesAlike(mem: Memory, regs: Registers, a: seq<byte>, b: seq<byte>, l: nat, i: nat, x: nat)
    requires |a| == 256 && |b| == 256 && Alike(a, b)
    ensures SpritePicture(mem, regs, a, l, i, x) == SpritePicture(mem, regs, b, l, i, x)
    decreases 8 - i
  {
    hide Alike, SpritePattern, Shows, SpriteOf, Registers.Height;
    if i < 8 {
      PatternAlike(mem, regs, a, b, l, i, x);
      ShowsAlike(a, b, l, regs.Height(), i);
      SpritesAlike(mem, regs, a, b, l, i + 1, x);
    }
  }

  /**
   A sprite in column 0 is drawn nowhere: two frames that differ only in the tiles and attributes of such
   sprites draw the same colour in every cell.
   */
  lemma NeverDrawnAtZero(p: Ppu, q: Ppu, s: nat, x: nat, mem: Memory)
    requires At(p, PRE_RENDER, 0) && At(q, PRE_RENDER, 0) && p.regs == q.regs && p.time == q.time
    requires Alike(p.eval.oam, q.eval.oam) && s <= LAST_VISIBLE && x < 256
    ensures var n := DotsToLine(p.time, s) + 1 + x;
      Step(Steps(p, n, mem), mem).pixels[WIDTH * s + x] == Step(Steps(q, n, mem), mem).pixels[WIDTH * s + x]
  {
    hide Step, Steps, Alike, SpritePicture, Picture, Down, PixelAddress, Color, DotsToLine;
    FrameShown(p, s, x, mem);
    FrameShown(q, s, x, mem);
    if s > 0 {
      SpritesAlike(mem, p.regs, p.eval.oam, q.eval.oam, s - 1, 0, x);
    }
  }

  // --- a sprite that another one makes vanish

  /**
   Two sprites and no other: one in column 0 whose first line is `y`, and right below it one in the first
   sixteen columns.
   */
  predicate Stacked(oam: seq<byte>, y: nat) {
    && |oam| == 256 && y <= 223
    && Num(oam[0]) == y && oam[3] == 0 && Num(oam[4]) == y + 8 && Num(oam[7]) <= 16
    && forall k {:trigger oam[4 * k]} :: 2 <= k < 64 ==> oam[4 * k] == 0xFF
  }

  lemma CoversLine(oam: seq<byte>, y: nat, k: nat, l: nat)
    requires Stacked(oam, y) && k < 64 && y <= l < y + 16
    ensures InRange(oam[4 * k], LineByte(l), 8) <==> k == (if l < y + 8 then 0 else 1)
  {
    hide InRange, LineByte, Num;
    InRangeMeans(oam[4 * k], l, false);
    LastByte();
  }

  lemma {:induction false} SelectedOne(oam: seq<byte>, y: nat, n: nat, l: nat)
    requires Stacked(oam, y) && n <= 64 && y <= l < y + 16
    ensures var k := if l < y + 8 then 0 else 1;
      Selected(oam, n, LineByte(l), 8) == if k < n then SpriteBytes(oam, k) else []
    decreases n
  {
    hide InRange, LineByte, Stacked;
    if n > 0 {
      SelectedOne(oam, y, n - 1, l);
      SelectedNext(oam, n - 1, LineByte(l), 8) by { StackedSize(oam, y); }
      CoversLine(oam, y, n - 1, l);
    }
  }

  lemma StackedSize(oam: seq<byte>, y: nat)
    requires Stacked(oam, y)
    ensures |oam| == 256
  {
  }

  lemma StackedColumns(oam: seq<byte>, y: nat, l: nat, i: nat)
    requires Stacked(oam, y) && y <= l < y + 16
    ensures Shows(oam, l, 8, i) <==> i == 0
    ensures ColumnOf(oam, l, 8, 0) <= 16 && (l < y + 8 ==> ColumnOf(oam, l, 8, 0) == 0)
  {
    hide LineByte, Num, Selected;
    SelectedOne(oam, y, 64, l);
    var k := if l < y + 8 then 0 else 1;
    var c := Chosen(oam, l, 8);
    assert c == SpriteBytes(oam, k);
    assert SpriteOf(oam, l, 8, 0) == c;
    assert Num(0) == 0 by { NumConstants(); }
  }

  lemma StackedBlocked(oam: seq<byte>, y: nat, l: nat)
    requires Stacked(oam, y) && y + 8 <= l < y + 16
    ensures Blocked(oam, l, 8, 0) && StartColumn(oam, l, 8, 0) == 0
  {
    hide ColumnOf, Stacked, Lagging;
    StackedSize(oam, y);
    StackedColumns(oam, y, y, 0);
    StackedColumns(oam, y, l, 0);
    forall j | y < j < l
      ensures ColumnOf(oam, j, 8, 0) <= 16
    {
      StackedColumns(oam, y, j, 0);
    }
    assert NearSince(oam, y, l, 8, 0);
    LagsWhereBlocked(oam, l, 8, 0);
    StartsAtZero(oam, l, 8, 0);
  }

  lemma {:induction false} NothingStacked(mem: Memory, regs: Registers, oam: seq<byte>, y: nat, l: nat, i: nat, x: nat)
    requires Stacked(oam, y) && |oam| == 256 && regs.Height() == 8 && y + 8 <= l < y + 16
    ensures SpritePicture(mem, regs, oam, l, i, x) == SpritePixel(0, 0)
    decreases 8 - i
  {
    hide Stacked, Shows, SpriteOf, PatternSource, PatternRow, UnitPixel, StartColumn, Blocked;
    if i < 8 {
      StackedBlocked(oam, y, l);
      StackedColumns(oam, y, l, i);
      NothingStacked(mem, regs, oam, y, l, i + 1, x);
    }
  }

  /** Each of the eight lines of the lower sprite draws the background alone, whatever its tile. */
  lemma LowerSpriteVanishes(p: Ppu, y: nat, s: nat, x: nat, mem: Memory)
    requires At(p, PRE_RENDER, 0) && p.regs.Height() == 8 && Stacked(p.eval.oam, y)
    requires y + 9 <= s <= y + 16 && x < 256
    ensures s <= LAST_VISIBLE
    ensures var n := DotsToLine(p.time, s) + 1 + x;
      Step(Steps(p, n, mem), mem).pixels[WIDTH * s + x]
      == Color(mem(Picture(mem, p.regs.ctrl, p.regs.fineX, Down(p.regs.t, s), x)), p.regs.Emphasis())
  {
    hide Step, Steps, SpritePicture, Picture, Down, Color, DotsToLine, Num;
    FrameShown(p, s, x, mem);
    NothingStacked(mem, p.regs, p.eval.oam, y, s - 1, 0, x);
  }

  /** Such an object memory: the lower sprite is in column 5. */
  function StackedExample(): (oam: seq<byte>)
    ensures |oam| == 256
  {
    [10, 0, 0, 0, 18, 0, 0, 5] + seq(248, i requires 0 <= i < 248 => 0xFF)
  }

  lemma ExampleStacked()
    ensures Stacked(StackedExample(), 10)
  {
    var oam := StackedExample();
    assert oam[0] == 10 && oam[3] == 0 && oam[4] == 18 && oam[7] == 5;
    assert Num(10) == 10 && Num(18) == 18 && Num(5) == 5;
  }
}
