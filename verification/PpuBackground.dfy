/**
 The background pipeline of the PPU: eight-dot tile fetches into two pattern and two attribute shift
 registers, and the picture these registers stand for.
 */
module PpuBackground {
  import opened Bits
  import opened PpuScroll

  /** What the PPU bus answers at each address while nothing writes to it. */
  type Memory = word -> byte

  datatype Background = Background(
    v: word, addressBus: word, latch: byte,
    patLo: word, patHi: word, attrLo: byte, attrHi: byte, inLo: bool, inHi: bool,
    tileId: byte, tileAttr: byte, lsb: byte)

  // --- picture
  datatype Tile = Tile(lo: byte, hi: byte, palette: byte)

  function NameAddress(v: word): word {
    0x2000 + 0x400 * Nametable(v) + 32 * CoarseY(v) + CoarseX(v)
  }

  function AttributeAddress(v: word): word {
    0x23C0 + 0x400 * Nametable(v) + 8 * (CoarseY(v) >> 2) + (CoarseX(v) >> 2)
  }

  /** Which 2x2-tile quarter of its attribute byte a tile uses: 0, 1 above, 2, 3 below. */
  function Quadrant(v: word): nat {
    (if CoarseY(v) & 2 != 0 then 2 else 0) + (if CoarseX(v) & 2 != 0 then 1 else 0)
  }

  function PaletteOf(attribute: byte, quadrant: nat): byte
    requires quadrant < 4
  {
    (match quadrant case 0 => attribute case 1 => attribute >> 2 case 2 => attribute >> 4 case 3 => attribute >> 6) & 3
  }

  function PatternRowAddress(ctrl: byte, id: byte, row: word, plane: word): word {
    (if ctrl & 0x10 != 0 then 0x1000 else 0) + (id as word) * 16 + (row + plane)
  }

  function PatternAddress(ctrl: byte, id: byte, v: word, plane: word): word {
    PatternRowAddress(ctrl, id, FineY(v), plane)
  }

  function TileAt(mem: Memory, ctrl: byte, v: word): Tile {
    var id := mem(NameAddress(v));
    Tile(mem(PatternAddress(ctrl, id, v, 0)), mem(PatternAddress(ctrl, id, v, 8)),
         PaletteOf(mem(AttributeAddress(v)), Quadrant(v)))
  }

  // --- fetch machine

  /** The phase of a dot inside the eight dots of a tile. */
  function Phase(dot: nat): nat
    requires dot >= 1
  {
    (dot - 1) % 8
  }

  function FetchAddress(b: Background, phase: nat, ctrl: byte): word {
    match phase
    case 0 => NameBits(b.v)
    case 2 => AttributeBits(b.v)
    case 4 => PatternAddress(ctrl, b.tileId, b.v, 0)
    case 6 => PatternAddress(ctrl, b.tileId, b.v, 8)
    case _ => b.addressBus
  }

  function DotFetch(b: Background, phase: nat, ctrl: byte): Background {
    b.(addressBus := FetchAddress(b, phase, ctrl),
       tileId := if phase == 1 then b.latch else b.tileId,
       tileAttr := if phase == 3 then PaletteBits(b.latch, b.v) else b.tileAttr,
       lsb := if phase == 5 then b.latch else b.lsb)
  }

  function NameBits(v: word): word { 0x2000 | (v & 0x0FFF) }
  function AttributeBits(v: word): word { 0x23C0 | (v & 0x0C00) | ((v >> 4) & 0x38) | ((v >> 2) & 0x7) }
  function PaletteBits(attribute: byte, v: word): byte {
      var coarseX := (v & 0x1F) as byte;
      var coarseY := ((v & 0xE0) as byte) >> 5;
      var shift := ((coarseY & 2) << 1) | (coarseX & 2);
      (attribute >> shift) & 3
  }

  lemma AddressBits(v: word)
    ensures NameBits(v) == NameAddress(v)
    ensures AttributeBits(v) == AttributeAddress(v)
  {
  }

  lemma PaletteIsQuadrant(v: word, a: byte)
    ensures PaletteBits(a, v) == PaletteOf(a, Quadrant(v))
  {
  }

  // --- pipeline
  function ShiftAttr(a: byte, b: bool): byte { (a << 1) | if b then 1 else 0 }
  function Dbl(x: word): word { x << 1 }
  function Shifted(b: Background): Background {
    b.(patLo := Dbl(b.patLo), patHi := Dbl(b.patHi), attrLo := ShiftAttr(b.attrLo, b.inLo), attrHi := ShiftAttr(b.attrHi, b.inHi))
  }

  /** The low byte of a pattern shifter is replaced on reload. */
  function ReloadWord(x: word, data: byte): word {
    (x & 0xFF00) | (data as word)
  }

  function Reloaded(b: Background): Background {
    b.(patLo := ReloadWord(b.patLo, b.lsb), patHi := ReloadWord(b.patHi, b.latch),
       inLo := PaletteBit(b.tileAttr, 1), inHi := PaletteBit(b.tileAttr, 2))
  }

  predicate PaletteBit(attr: byte, mask: byte) { attr & mask != 0 }

  /** Behind the fetch of a dot the registers shift, and every eighth dot the next tile is loaded. */
  function Piped(b: Background, dot: nat): Background
    requires dot >= 1
  {
    var s := Shifted(b);
    var r := if Phase(dot) == 7 then Reloaded(s.(v := IncCoarseX(s.v))) else s;
    r.(v := if dot == 256 then IncY(r.v) else r.v)
  }

  /** The part of a dot that moves the background pipeline. */
  function PipelineDot(b: Background, dot: nat, ctrl: byte): Background
    requires dot >= 1
  {
    Piped(DotFetch(b, Phase(dot), ctrl), dot)
  }

  function Latched(b: Background, mem: Memory): Background { b.(latch := mem(b.addressBus)) }

  function FetchDot(b: Background, dot: nat, ctrl: byte, mem: Memory): Background
    requires dot >= 1
  {
    Latched(PipelineDot(b, dot, ctrl), mem)
  }

  /** `n` fetch dots from the first dot of tile slot `t`. */
  function FetchDots(b: Background, t: nat, n: nat, ctrl: byte, mem: Memory): Background
  {
    if n == 0 then b else FetchDot(FetchDots(b, t, n - 1, ctrl, mem), 8 * t + n, ctrl, mem)
  }

  function DblN(x: word, k: nat): word
    decreases k
  {
    if k == 0 then x else Dbl(DblN(x, k - 1))
  }

  function ShiftAttrN(a: byte, fill: bool, k: nat): byte
    decreases k
  {
    if k == 0 then a else ShiftAttr(ShiftAttrN(a, fill, k - 1), fill)
  }

  /** `e` is `b` with its shifters moved `k` places; only the fetch latches may differ otherwise. */
  ghost predicate Slid(b: Background, e: Background, k: nat) {
    && e.v == b.v && e.inLo == b.inLo && e.inHi == b.inHi
    && e.patLo == DblN(b.patLo, k) && e.patHi == DblN(b.patHi, k)
    && e.attrLo == ShiftAttrN(b.attrLo, b.inLo, k) && e.attrHi == ShiftAttrN(b.attrHi, b.inHi, k)
  }

  lemma QuietDot(b: Background, dot: nat, ctrl: byte, mem: Memory)
    requires dot >= 1 && Phase(dot) != 7
    ensures FetchDot(b, dot, ctrl, mem) == Latched(Shifted(DotFetch(b, Phase(dot), ctrl)), mem)
  {
    hide DotFetch, IncCoarseX, IncY, Reloaded, Shifted;
    assert dot != 256;
  }

  lemma PhaseAt(t: nat, k: nat)
    requires k < 8
    ensures Phase(8 * t + k + 1) == k
  {
  }

  lemma QuietSlide(b: Background, e: Background, dot: nat, k: nat, ctrl: byte, mem: Memory)
    requires dot >= 1 && Phase(dot) != 7
    requires Slid(b, e, k)
    ensures Slid(b, FetchDot(e, dot, ctrl, mem), k + 1)
  {
    hide FetchDot, Dbl, ShiftAttr, FetchAddress, PaletteBits;
    QuietDot(e, dot, ctrl, mem);
  }

  lemma {:induction false} Sliding(b: Background, t: nat, k: nat, ctrl: byte, mem: Memory)
    requires k <= 7
    ensures Slid(b, FetchDots(b, t, k, ctrl, mem), k)
  {
    hide FetchDot, Dbl, ShiftAttr;
    if k > 0 {
      Sliding(b, t, k - 1, ctrl, mem);
      PhaseAt(t, k - 1);
      QuietSlide(b, FetchDots(b, t, k - 1, ctrl, mem), 8 * t + k, k - 1, ctrl, mem);
    }
  }

  lemma QuietStep(b: Background, t: nat, k: nat, ctrl: byte, mem: Memory)
    requires k < 7
    ensures var e := FetchDots(b, t, k, ctrl, mem);
      && e.v == b.v
      && var n := FetchDots(b, t, k + 1, ctrl, mem);
      && n.latch == mem(n.addressBus) && n.addressBus == FetchAddress(e, k, ctrl)
      && n.tileId == (if k == 1 then e.latch else e.tileId)
      && n.tileAttr == (if k == 3 then PaletteBits(e.latch, b.v) else e.tileAttr)
      && n.lsb == (if k == 5 then e.latch else e.lsb)
  {
    hide FetchDot, Dbl, ShiftAttr, FetchAddress, PaletteBits;
    Sliding(b, t, k, ctrl, mem);
    PhaseAt(t, k);
    QuietDot(FetchDots(b, t, k, ctrl, mem), 8 * t + k + 1, ctrl, mem);
  }

  /** After seven dots the three bytes of the tile under `v` are latched. */
  lemma {:induction false} Fetched(b: Background, t: nat, ctrl: byte, mem: Memory)
    ensures var e := FetchDots(b, t, 7, ctrl, mem);
      TileAt(mem, ctrl, b.v) == Tile(e.lsb, e.latch, e.tileAttr)
  {
    hide FetchDots, NameAddress, AttributeAddress, PatternAddress, NameBits, AttributeBits, PaletteBits, PaletteOf,
      Quadrant;
    var e0 := FetchDots(b, t, 0, ctrl, mem);
    var e1 := FetchDots(b, t, 1, ctrl, mem);
    var e2 := FetchDots(b, t, 2, ctrl, mem);
    var e3 := FetchDots(b, t, 3, ctrl, mem);
    var e4 := FetchDots(b, t, 4, ctrl, mem);
    var e5 := FetchDots(b, t, 5, ctrl, mem);
    var e6 := FetchDots(b, t, 6, ctrl, mem);
    var e7 := FetchDots(b, t, 7, ctrl, mem);
    AddressBits(b.v);
    PaletteIsQuadrant(b.v, e3.latch);
    QuietStep(b, t, 0, ctrl, mem); 
    QuietStep(b, t, 1, ctrl, mem);
    assert e2.tileId == mem(NameAddress(b.v));
    QuietStep(b, t, 2, ctrl, mem);
    assert e3.latch == mem(AttributeAddress(b.v));
    QuietStep(b, t, 3, ctrl, mem);
    assert e4.tileAttr == TileAt(mem, ctrl, b.v).palette;
    QuietStep(b, t, 4, ctrl, mem);
    QuietStep(b, t, 5, ctrl, mem);
    assert e6.lsb == TileAt(mem, ctrl, b.v).lo;
    QuietStep(b, t, 6, ctrl, mem);
  }

  predicate WordBit(x: word, fineX: byte)
    requires fineX < 8
  {
    x & ((((0x80 as byte) >> fineX) as word) << 8) != 0
  }

  predicate ByteBit(x: byte, fineX: byte)
    requires fineX < 8
  {
    x & ((0x80 as byte) >> fineX) != 0
  }

  function ColorAddress(patternHi: bool, patternLo: bool, paletteHi: bool, paletteLo: bool): word {
    var pattern: word := (if patternHi then 2 else 0) | (if patternLo then 1 else 0);
    var palette: word := (if paletteHi then 2 else 0) | (if paletteLo then 1 else 0);
    if pattern == 0 then 0x3F00 else 0x3F00 + (palette << 2) + pattern
  }

  /** The colour address under the current position of the shift registers. */
  function BackgroundPixel(b: Background, fineX: byte): word
    requires fineX < 8
  {
    ColorAddress(WordBit(b.patHi, fineX), WordBit(b.patLo, fineX), ByteBit(b.attrHi, fineX), ByteBit(b.attrLo, fineX))
  }

  /** Pixel `p` of a tile row, counted from the left. */
  function TilePixel(c: Tile, p: nat): word
    requires p < 8
  {
    ColorAddress(BitAt(c.hi, p), BitAt(c.lo, p), PaletteBit(c.palette, 2), PaletteBit(c.palette, 1))
  }

  // --- what the shift registers hold

  function Fill(bit: bool): byte { if bit then 0xFF else 0 }

  /** Tile `c` was loaded last. */
  ghost predicate Loaded(b: Background, c: Tile) {
    && Low(b.patLo) == c.lo && Low(b.patHi) == c.hi
    && b.inLo == PaletteBit(c.palette, 1) && b.inHi == PaletteBit(c.palette, 2)
  }

  /** The upper halves hold tile `a`, the lower halves tile `c`. */
  ghost predicate Holding(b: Background, a: Tile, c: Tile) {
    && b.patLo == Pair(a.lo, c.lo) && b.patHi == Pair(a.hi, c.hi)
    && b.attrLo == Fill(PaletteBit(a.palette, 1)) && b.attrHi == Fill(PaletteBit(a.palette, 2))
    && b.inLo == PaletteBit(c.palette, 1) && b.inHi == PaletteBit(c.palette, 2)
  }

  lemma EightDoubles(x: word)
    ensures DblN(x, 8) == x << 8
  {
    assert DblN(x, 8) == Dbl(Dbl(Dbl(Dbl(Dbl(Dbl(Dbl(Dbl(x))))))));
    hide DblN;
  }

  /** Eight shifts and a reload move the low byte up and put the new one below it. */
  lemma ShiftOutWord(x: word, data: byte)
    ensures ReloadWord(Dbl(DblN(x, 7)), data) == Pair(Low(x), data)
  {
    assert DblN(x, 8) == Dbl(DblN(x, 7));
    hide DblN;
    EightDoubles(x);
  }

  lemma PairLow(hi: byte, lo: byte)
    ensures Low(Pair(hi, lo)) == lo
  {
  }

  lemma FillBits(attr: byte)
    ensures ShiftAttr(ShiftAttrN(attr, true, 7), true) == Fill(true)
    ensures ShiftAttr(ShiftAttrN(attr, false, 7), false) == Fill(false)
  {
    assert ShiftAttrN(attr, true, 2) & 0x03 == 0x03 && ShiftAttrN(attr, false, 2) & 0x03 == 0;
    assert ShiftAttrN(attr, true, 4) & 0x0F == 0x0F && ShiftAttrN(attr, false, 4) & 0x0F == 0;
    assert ShiftAttrN(attr, true, 6) & 0x3F == 0x3F && ShiftAttrN(attr, false, 6) & 0x3F == 0;
  }

  lemma LastDot(p: Background, dot: nat, ctrl: byte, mem: Memory)
    requires dot >= 1 && Phase(dot) == 7
    ensures var e := FetchDot(p, dot, ctrl, mem);
      && e.v == (if dot == 256 then IncY(IncCoarseX(p.v)) else IncCoarseX(p.v))
      && e.patLo == ReloadWord(Dbl(p.patLo), p.lsb) && e.patHi == ReloadWord(Dbl(p.patHi), p.latch)
      && e.attrLo == ShiftAttr(p.attrLo, p.inLo) && e.attrHi == ShiftAttr(p.attrHi, p.inHi)
      && e.inLo == PaletteBit(p.tileAttr, 1) && e.inHi == PaletteBit(p.tileAttr, 2)
  {
    hide IncCoarseX, IncY, ReloadWord, Dbl, ShiftAttr, PaletteBit, PaletteBits, FetchAddress;
  }

  lemma EighthDot(b: Background, t: nat, ctrl: byte, mem: Memory)
    ensures FetchDots(b, t, 8, ctrl, mem) == FetchDot(FetchDots(b, t, 7, ctrl, mem), 8 * t + 8, ctrl, mem)
  {
    hide FetchDot;
  }

  /** One slot of eight dots fetches the tile under `v`, loads it, and moves `v` on. */
  lemma SlotLoads(b: Background, t: nat, a: Tile, ctrl: byte, mem: Memory)
    ensures var e := FetchDots(b, t, 8, ctrl, mem);
      && e.v == (if t == 31 then IncY(IncCoarseX(b.v)) else IncCoarseX(b.v))
      && Loaded(e, TileAt(mem, ctrl, b.v))
      && (Loaded(b, a) ==> Holding(e, a, TileAt(mem, ctrl, b.v)))
  {
    hide FetchDot, FetchDots, IncCoarseX, IncY, Dbl, ShiftAttr, DblN, ShiftAttrN, Pair, Fill, Low, TileAt, ReloadWord,
      PaletteBit, Loaded, Holding;
    var p := FetchDots(b, t, 7, ctrl, mem);
    EighthDot(b, t, ctrl, mem);
    Sliding(b, t, 7, ctrl, mem);
    Fetched(b, t, ctrl, mem);
    PhaseAt(t, 7);
    LastDot(p, 8 * t + 8, ctrl, mem);
    SlotEnds(b, p, FetchDot(p, 8 * t + 8, ctrl, mem), a, TileAt(mem, ctrl, b.v));
  }

  /** The registers `e` behind the last dot of a slot that had `p` before it and `b` at its start. */
  lemma SlotEnds(b: Background, p: Background, e: Background, a: Tile, c: Tile)
    requires p.patLo == DblN(b.patLo, 7) && p.patHi == DblN(b.patHi, 7)
    requires p.attrLo == ShiftAttrN(b.attrLo, b.inLo, 7) && p.attrHi == ShiftAttrN(b.attrHi, b.inHi, 7)
    requires p.inLo == b.inLo && p.inHi == b.inHi && p.lsb == c.lo && p.latch == c.hi && p.tileAttr == c.palette
    requires e.patLo == ReloadWord(Dbl(p.patLo), p.lsb) && e.patHi == ReloadWord(Dbl(p.patHi), p.latch)
    requires e.attrLo == ShiftAttr(p.attrLo, p.inLo) && e.attrHi == ShiftAttr(p.attrHi, p.inHi)
    requires e.inLo == PaletteBit(p.tileAttr, 1) && e.inHi == PaletteBit(p.tileAttr, 2)
    ensures Loaded(e, c) && (Loaded(b, a) ==> Holding(e, a, c))
  {
    hide Dbl, ShiftAttr, DblN, ShiftAttrN, Pair, Fill, Low, ReloadWord, PaletteBit;
    WordMoved(b.patLo, p.lsb);
    WordMoved(b.patHi, p.latch);
    AttributeMoved(b.attrLo, b.inLo);
    AttributeMoved(b.attrHi, b.inHi);
  }

  lemma WordMoved(x: word, data: byte)
    ensures var w := ReloadWord(Dbl(DblN(x, 7)), data); w == Pair(Low(x), data) && Low(w) == data
  {
    hide DblN, Dbl, ReloadWord, Pair, Low;
    ShiftOutWord(x, data);
    PairLow(Low(x), data);
  }

  lemma AttributeMoved(attr: byte, bit: bool)
    ensures ShiftAttr(ShiftAttrN(attr, bit, 7), bit) == Fill(bit)
  {
    hide ShiftAttr, ShiftAttrN, Fill;
    FillBits(attr);
  }

  // --- from register bits to tile pixels

  /** Bit `n` of a word, counted from the most significant bit. */
  predicate TopBit(x: word, n: nat)
    requires n < 16
  {
    if n < 8 then BitAt(High(x), n) else BitAt(Low(x), n - 8)
  }

  lemma ByteMovesBits(a: byte, carry: byte, n: nat)
    requires n < 8
    ensures n < 7 ==> BitAt((a << 1) | (carry >> 7), n) == BitAt(a, n + 1)
    ensures n == 7 ==> BitAt((a << 1) | (carry >> 7), n) == BitAt(carry, 0)
    ensures n < 7 ==> BitAt(a << 1, n) == BitAt(a, n + 1)
  {
    if n == 0 {} else if n == 1 {} else if n == 2 {} else if n == 3 {}
    else if n == 4 {} else if n == 5 {} else if n == 6 {} else {}
  }

  lemma DoubleHalves(x: word)
    ensures High(Dbl(x)) == (High(x) << 1) | (Low(x) >> 7)
    ensures Low(Dbl(x)) == Low(x) << 1
  {
  }

  lemma DoubleMovesBits(x: word, n: nat)
    requires n < 15
    ensures TopBit(Dbl(x), n) == TopBit(x, n + 1)
  {
    hide High, Low, Dbl, BitAt;
    DoubleHalves(x);
    if n < 8 {
      ByteMovesBits(High(x), Low(x), n);
    } else {
      ByteMovesBits(Low(x), 0, n - 8);
    }
  }

  lemma {:induction false} ShiftsMoveBits(x: word, k: nat, n: nat)
    requires n + k < 16
    ensures TopBit(DblN(x, k), n) == TopBit(x, n + k)
    decreases k
  {
    hide Dbl, TopBit;
    if k > 0 {
      DoubleMovesBits(DblN(x, k - 1), n);
      ShiftsMoveBits(x, k - 1, n + 1);
    }
  }

  lemma PairBits(a: byte, c: byte, n: nat)
    requires n < 16
    ensures TopBit(Pair(a, c), n) == if n < 8 then BitAt(a, n) else BitAt(c, n - 8)
  {
    assert High(Pair(a, c)) == a && Low(Pair(a, c)) == c;
    hide High, Low, Pair;
  }

  lemma FineWord(x: word, f: byte)
    requires f < 8
    ensures WordBit(x, f) == ByteBit(High(x), f)
  {
  }

  lemma FineByte(y: byte, f: byte)
    requires f < 8
    ensures Num(f) < 8
    ensures ByteBit(y, f) == BitAt(y, Num(f))
  {
    if f == 0 {} else if f == 1 {} else if f == 2 {} else if f == 3 {}
    else if f == 4 {} else if f == 5 {} else if f == 6 {} else { assert f == 7; }
  }

  lemma AttributeShift(a: byte, bit: bool, n: nat)
    requires n < 8
    ensures BitAt(ShiftAttr(a, bit), n) == if n < 7 then BitAt(a, n + 1) else bit
  {
    if n == 0 {} else if n == 1 {} else if n == 2 {} else if n == 3 {}
    else if n == 4 {} else if n == 5 {} else if n == 6 {} else {}
  }

  lemma FillAt(bit: bool, n: nat)
    requires n < 8
    ensures BitAt(Fill(bit), n) == bit
  {
  }

  lemma {:induction false} AttributeWindow(p: bool, q: bool, k: nat, n: nat)
    requires n < 8
    ensures BitAt(ShiftAttrN(Fill(p), q, k), n) == if n + k < 8 then p else q
    decreases k
  {
    hide ShiftAttr, Fill, BitAt;
    if k == 0 {
      FillAt(p, n);
    } else {
      AttributeShift(ShiftAttrN(Fill(p), q, k - 1), q, n);
      if n < 7 {
        AttributeWindow(p, q, k - 1, n + 1);
      }
    }
  }

  /** Pixel `n` of a row of two tiles. */
  function RowPixel(a: Tile, c: Tile, n: nat): word
    requires n < 16
  {
    if n < 8 then TilePixel(a, n) else TilePixel(c, n - 8)
  }

  lemma PatternWindow(a: byte, c: byte, k: nat, fineX: byte)
    requires k < 8 && fineX < 8
    ensures Num(fineX) < 8
    ensures var n := Num(fineX) + k;
      WordBit(DblN(Pair(a, c), k), fineX) == if n < 8 then BitAt(a, n) else BitAt(c, n - 8)
  {
    hide TopBit, WordBit, ByteBit, BitAt, High, DblN, Pair, Num;
    var x := DblN(Pair(a, c), k);
    FineWord(x, fineX);
    FineByte(High(x), fineX);
    TopByte(x, Num(fineX));
    ShiftsMoveBits(Pair(a, c), k, Num(fineX));
    PairBits(a, c, Num(fineX) + k);
  }

  lemma PaletteWindow(p: bool, q: bool, k: nat, fineX: byte)
    requires k < 8 && fineX < 8
    ensures Num(fineX) < 8
    ensures ByteBit(ShiftAttrN(Fill(p), q, k), fineX) == if Num(fineX) + k < 8 then p else q
  {
    hide ByteBit, BitAt, ShiftAttrN, Fill, Num;
    FineByte(ShiftAttrN(Fill(p), q, k), fineX);
    AttributeWindow(p, q, k, Num(fineX));
  }

  /** The selected register bits are one pixel of the two tiles held, `k` dots into a slot. */
  lemma SlotPixel(b: Background, e: Background, a: Tile, c: Tile, k: nat, fineX: byte)
    requires Holding(b, a, c) && Slid(b, e, k) && k < 8 && fineX < 8
    ensures Num(fineX) < 8
    ensures BackgroundPixel(e, fineX) == RowPixel(a, c, Num(fineX) + k)
  {
    hide WordBit, ByteBit, BitAt, DblN, ShiftAttrN, Pair, Fill, PaletteBit, ColorAddress, Num;
    PatternWindow(a.lo, c.lo, k, fineX);
    PatternWindow(a.hi, c.hi, k, fineX);
    PaletteWindow(PaletteBit(a.palette, 1), PaletteBit(c.palette, 1), k, fineX);
    PaletteWindow(PaletteBit(a.palette, 2), PaletteBit(c.palette, 2), k, fineX);
  }

  lemma TopByte(x: word, n: nat)
    requires n < 8
    ensures TopBit(x, n) == BitAt(High(x), n)
  {
  }

  // --- the picture of a line

  /**
   The background colour address of screen column `x` on a line whose scroll position is `w`: the tile
   `(fineX + x) / 8` columns to the right of `w`, wrapping into the neighbouring nametable, looked up
   in the nametable, attribute table and pattern table, at its pixel `(fineX + x) % 8`.
   */
  function Picture(mem: Memory, ctrl: byte, fineX: byte, w: word, x: nat): word {
    var n := Num(fineX) + x;
    TilePixel(TileAt(mem, ctrl, Right(w, n / 8)), n % 8)
  }

  /** At the first dot of slot `t` the registers hold tiles `t` and `t + 1` of the line. */
  ghost predicate AtSlot(b: Background, w: word, t: nat, ctrl: byte, mem: Memory) {
    Holding(b, TileAt(mem, ctrl, Right(w, t)), TileAt(mem, ctrl, Right(w, t + 1)))
  }

  lemma SlotAdvances(b: Background, w: word, t: nat, ctrl: byte, mem: Memory)
    requires AtSlot(b, w, t, ctrl, mem) && b.v == Right(w, t + 2)
    ensures var e := FetchDots(b, t, 8, ctrl, mem);
      && AtSlot(e, w, t + 1, ctrl, mem)
      && e.v == if t == 31 then IncY(Right(w, t + 3)) else Right(w, t + 3)
  {
    hide FetchDots, TileAt, Right, IncCoarseX, IncY, Pair, Fill, Low, PaletteBit;
    var c := TileAt(mem, ctrl, Right(w, t + 1));
    PairLow(TileAt(mem, ctrl, Right(w, t)).lo, c.lo);
    PairLow(TileAt(mem, ctrl, Right(w, t)).hi, c.hi);
    SlotLoads(b, t, c, ctrl, mem);
    RightNext(w, t + 2);
  }

  lemma SlotShowsPicture(b: Background, w: word, t: nat, k: nat, ctrl: byte, fineX: byte, mem: Memory)
    requires AtSlot(b, w, t, ctrl, mem) && k < 8 && fineX < 8
    ensures BackgroundPixel(FetchDots(b, t, k, ctrl, mem), fineX) == Picture(mem, ctrl, fineX, w, 8 * t + k)
  {
    hide FetchDots, TileAt, Right, TilePixel, Holding, Slid, BackgroundPixel, Num;
    var e := FetchDots(b, t, k, ctrl, mem);
    Sliding(b, t, k, ctrl, mem);
    var a, c := TileAt(mem, ctrl, Right(w, t)), TileAt(mem, ctrl, Right(w, t + 1));
    SlotPixel(b, e, a, c, k, fineX);
    var n := Num(fineX) + (8 * t + k);
    if Num(fineX) + k < 8 {
      assert n / 8 == t && n % 8 == Num(fineX) + k;
    } else {
      assert n / 8 == t + 1 && n % 8 == Num(fineX) + k - 8;
    }
  }
}
