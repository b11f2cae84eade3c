/** One dot of the whole PPU, as a function of its state and of what its bus answers. */
module PpuModel {
  import opened Bits
  import opened PpuTiming
  import opened PpuScroll
  import opened PpuBackground
  import opened PpuSprites

  const WIDTH := 256
  const CELLS := 61440

  datatype Registers = Registers(ctrl: byte, mask: byte, t: word, fineX: byte)
  {
    predicate Rendering() {
      mask & 0x18 != 0
    }
    function Height(): byte {
      if ctrl & 0x20 == 0 then 8 else 16
    }
    function Emphasis(): word {
      (mask >> 5) as word
    }
  }

  datatype SpriteFifo = SpriteFifo(lo: byte, hi: byte, counter: byte, attribute: byte, counting: bool)

  datatype SpriteUnit = SpriteUnit(fifos: seq<SpriteFifo>, tileId: byte)

  datatype Ppu = Ppu(regs: Registers, time: Timing, bg: Background, eval: Evaluator, sprites: SpriteUnit, pixels: seq<word>)
  {
    predicate Valid() {
      && time.Valid() && eval.Valid() && |sprites.fifos| == 8 && |pixels| == CELLS && regs.fineX < 8
    }
  }

  // --- sprite units

  function Reversed(b: byte): byte {
    ((b & 0x01) << 7) | ((b & 0x02) << 5) | ((b & 0x04) << 3) | ((b & 0x08) << 1)
    | ((b & 0x10) >> 1) | ((b & 0x20) >> 3) | ((b & 0x40) >> 5) | ((b & 0x80) >> 7)
  }

  /** The row of the sprite that line `line` shows, upside down if the sprite is flipped vertically. */
  function RowOffset(attribute: byte, line: byte, y: byte, height: byte): byte {
    if attribute & 0x80 == 0 then line - y else (height - 1) - (line - y)
  }

  function SpriteAddress(ctrl: byte, id: byte, attribute: byte, line: byte, y: byte): word {
    var height: byte := if ctrl & 0x20 == 0 then 8 else 16;
    var row := RowOffset(attribute, line, y, height);
    var base: word := if height == 8 then ((ctrl & 0x8) as word) << 9 else ((id & 1) as word) << 12;
    var tile: word := if height == 8 then id as word
                      else if row < 8 then (id & 0xFE) as word else ((id & 0xFE) as word) + 1;
    base + tile * 16 + ((row & 7) as word)
  }

  /** A fetched pattern row: mirrored if the sprite is, and blank if the sprite misses the line. */
  function PatternRow(data: byte, attribute: byte, inRange: bool): byte {
    if !inRange then 0 else if attribute & 0x40 != 0 then Reversed(data) else data
  }

  function FetchUnit(f: SpriteFifo, phase: nat, soam: seq<byte>, s: nat, inRange: bool, lo: byte, hi: byte): SpriteFifo
    requires |soam| == 32
  {
    match phase
    case 0 => f
    case 1 => f.(attribute := soam[(s + 2) % 256 % 32])
    case 2 => f.(lo := PatternRow(lo, f.attribute, inRange))
    case 3 => f.(counter := soam[(s + 3) % 256 % 32], hi := PatternRow(hi, f.attribute, inRange))
    case _ => f.(counter := soam[(s + 3) % 256 % 32])
  }

  function ShiftedOut(f: SpriteFifo): SpriteFifo {
    if f.counter == 0 && !f.counting then f.(lo := f.lo << 1, hi := f.hi << 1) else f
  }

  function CountedDown(f: SpriteFifo): SpriteFifo {
    if f.counting && f.counter > 0 then f.(counter := f.counter - 1, counting := f.counter != 1) else f
  }

  /** The two-bit pattern a unit puts out at this dot. */
  function UnitPattern(f: SpriteFifo): byte {
    if f.counter == 0 && !f.counting
    then (if f.hi & 0x80 != 0 then 2 else 0) | (if f.lo & 0x80 != 0 then 1 else 0)
    else 0
  }

  datatype SpritePixel = SpritePixel(pattern: byte, attribute: byte)

  /** The first unit that puts out an opaque pattern wins. */
  function FrontSprite(fifos: seq<SpriteFifo>): SpritePixel {
    if fifos == [] then SpritePixel(0, 0)
    else if UnitPattern(fifos[0]) != 0 then SpritePixel(UnitPattern(fifos[0]), fifos[0].attribute)
    else FrontSprite(fifos[1..])
  }

  function MapFifos(fifos: seq<SpriteFifo>, f: SpriteFifo -> SpriteFifo): (r: seq<SpriteFifo>)
    ensures |r| == |fifos|
  {
    seq(|fifos|, i requires 0 <= i < |fifos| => f(fifos[i]))
  }

  // --- pixels

  function SpriteColor(s: SpritePixel): word {
    if s.pattern == 0 then 0x3F10 else 0x3F10 + (((s.attribute & 3) as word) << 2) + (s.pattern as word)
  }

  /** Which palette entry a pixel shows: an opaque sprite hides the background unless it is behind it. */
  function PixelAddress(background: word, s: SpritePixel): word {
    if s.pattern == 0 then background
    else if background == 0x3F00 || s.attribute & 0x20 == 0 then SpriteColor(s)
    else background
  }

  function Color(data: byte, emphasis: word): word {
    ((data & 0x3F) as word) | (emphasis << 6)
  }

  predicate Drawn(t: Timing) {
    t.Visible() && 1 <= t.dot <= 256
  }

  function Cell(t: Timing): nat
    requires Drawn(t)
  {
    t.scanline * WIDTH + (t.dot - 1)
  }

  function Pixel(p: Ppu, mem: Memory): word
    requires p.Valid()
  {
    if p.regs.Rendering() then
      Color(mem(PixelAddress(BackgroundPixel(p.bg, p.regs.fineX), FrontSprite(p.sprites.fifos))), p.regs.Emphasis())
    else Color(mem(0x3F00), 0)
  }

  // --- one dot

  predicate FetchWindow(dot: nat) {
    1 <= dot <= 256 || 321 <= dot <= 336
  }

  predicate SpriteWindow(dot: nat) {
    257 <= dot <= 320
  }

  /** The slot in secondary object memory that sprite fetching works on. */
  function SlotIndex(e: Evaluator, dot: nat): nat {
    if dot == 257 then 0 else e.soamIndex
  }

  /** The pattern address of the sprite in slot `s`. */
  function UnitAddress(ctrl: byte, soam: seq<byte>, u: SpriteUnit, line: nat, y: byte, s: nat): word
    requires |soam| == 32 && |u.fifos| == 8
  {
    SpriteAddress(ctrl, soam[(s + 1) % 256 % 32], u.fifos[s / 4 % 8].attribute, LineByte(line), y)
  }

  function NextSpriteAddress(p: Ppu): word
    requires p.Valid()
  {
    UnitAddress(p.regs.ctrl, p.eval.soam, p.sprites, p.time.scanline, p.eval.spriteY, SlotIndex(p.eval, p.time.dot))
  }

  /** The scroll position is reloaded: horizontally behind every line, vertically on the pre-render line. */
  function Rescrolled(b: Background, time: Timing, regs: Registers): Background {
    var h := b.(v := if time.dot == 257 then CopyHorizontal(b.v, regs.t) else b.v);
    h.(v := if 280 <= time.dot <= 304 && time.scanline == PRE_RENDER then CopyVertical(h.v, regs.t) else h.v)
  }

  function BackgroundMoved(b: Background, time: Timing, regs: Registers, spriteAddress: word): Background {
    var f := b.(addressBus := if SpriteWindow(time.dot) && Phase(time.dot) == 2 then spriteAddress else b.addressBus);
    Rescrolled(if FetchWindow(time.dot) then PipelineDot(f, time.dot, regs.ctrl) else f, time, regs)
  }

  /** The background registers after a dot of a rendered line. */
  function BackgroundDot(b: Background, time: Timing, regs: Registers, spriteAddress: word, mem: Memory): Background {
    Latched(BackgroundMoved(b, time, regs, spriteAddress), mem)
  }

  /** One of eight dots of loading a unit from slot `s`. */
  function LoadedUnits(u: SpriteUnit, phase: nat, soam: seq<byte>, s: nat, inRange: bool, lo: byte, hi: byte): (r: SpriteUnit)
    requires |soam| == 32 && |u.fifos| == 8
    ensures |r.fifos| == 8
  {
    u.(fifos := u.fifos[s / 4 % 8 := FetchUnit(u.fifos[s / 4 % 8], phase, soam, s, inRange, lo, hi)],
       tileId := if phase == 2 then soam[(s + 1) % 256 % 32] else u.tileId)
  }

  function FetchedUnits(p: Ppu, mem: Memory): (r: SpriteUnit)
    requires p.Valid() && SpriteWindow(p.time.dot)
    ensures |r.fifos| == 8
  {
    LoadedUnits(p.sprites, Phase(p.time.dot), p.eval.soam, SlotIndex(p.eval, p.time.dot),
                InRange(p.eval.spriteY, LineByte(p.time.scanline), p.regs.Height()),
                mem(NextSpriteAddress(p)), mem(p.bg.addressBus + 8))
  }

  function Counting(u: SpriteUnit): SpriteUnit {
    u.(fifos := MapFifos(u.fifos, (f: SpriteFifo) => f.(counting := true)))
  }

  /** The units before they move: loaded behind a line, and set counting before the next. */
  function UnitsPrepared(p: Ppu, mem: Memory): (u: SpriteUnit)
    requires p.Valid()
    ensures |u.fifos| == 8
  {
    if SpriteWindow(p.time.dot) then FetchedUnits(p, mem)
    else if p.time.dot == 339 then Counting(p.sprites)
    else p.sprites
  }

  /** The units that have counted down shift while pixels are drawn; the others count. */
  function UnitsMoved(u: SpriteUnit, t: Timing): (r: SpriteUnit)
    ensures |r.fifos| == |u.fifos|
  {
    if FetchWindow(t.dot) then
      u.(fifos := MapFifos(if Drawn(t) then MapFifos(u.fifos, ShiftedOut) else u.fifos, CountedDown))
    else u
  }

  function SpriteDot(p: Ppu, mem: Memory): (u: SpriteUnit)
    requires p.Valid()
    ensures |u.fifos| == 8
  {
    UnitsMoved(UnitsPrepared(p, mem), p.time)
  }

  /** The state after one dot. */
  function Step(p: Ppu, mem: Memory): (r: Ppu)
    requires p.Valid()
    ensures r.Valid()
  {
    var on := p.regs.Rendering();
    var q := p.(time := Entered(p.time));
    var live := on && q.time.Rendered();
    Ppu(q.regs,
        Advanced(q.time, on),
        if live then BackgroundDot(q.bg, q.time, q.regs, NextSpriteAddress(q), mem) else Latched(q.bg, mem),
        if live then EvaluatorDot(q.eval, q.time.dot, LineByte(q.time.scanline), q.regs.Height(), q.time.scanline == PRE_RENDER)
        else q.eval,
        if live then SpriteDot(q, mem) else q.sprites,
        if Drawn(q.time) then q.pixels[Cell(q.time) := Pixel(q, mem)] else q.pixels)
  }

  function Steps(p: Ppu, n: nat, mem: Memory): (r: Ppu)
    requires p.Valid()
    ensures r.Valid()
  {
    if n == 0 then p else Step(Steps(p, n - 1, mem), mem)
  }
}
