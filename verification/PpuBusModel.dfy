/** The PPU bus with an NROM cartridge: pattern memory, two mirrored nametables and the palette. */
module PpuBusModel {
  import opened Bits
  import opened Nametables

  const TABLE_CELLS := 0x800
  const PALETTE_START := 0x3F00
  const PALETTE_SIZE := 0x20

  /** Pattern memory is ROM unless it is `writable`; a cartridge may have none. */
  datatype PpuMemory = PpuMemory(chr: seq<byte>, writable: bool, tables: seq<byte>, zeros: seq<byte>, palettes: seq<byte>)
  {
    predicate Valid() {
      |tables| == TABLE_CELLS && |zeros| == 4 && |palettes| == PALETTE_SIZE
    }
  }

  // --- the palette: the four zero entries appear twice

  predicate ZeroEntry(i: nat) { i % 4 == 0 }

  function PaletteRead(m: PpuMemory, i: nat): byte
    requires m.Valid()
  {
    if i < PALETTE_SIZE && ZeroEntry(i) then m.zeros[i % 16 / 4] else m.palettes[i % PALETTE_SIZE]
  }

  function SixBits(v: byte): byte { v & 0x3F }
  function LowNibble(v: byte): byte { v & 0x0F }
  function HighBits(v: byte): byte { v & 0xF0 }

  function PaletteWrite(m: PpuMemory, i: nat, v: byte): (r: PpuMemory)
    requires m.Valid()
    ensures r.Valid()
  {
    if i < PALETTE_SIZE && ZeroEntry(i) then m.(zeros := m.zeros[i % 16 / 4 := SixBits(v)])
    else m.(palettes := m.palettes[i % PALETTE_SIZE := SixBits(v)])
  }

  function PaletteIndex(addr: nat): (i: nat)
    requires PALETTE_START <= addr
    ensures i < PALETTE_SIZE
  {
    (addr - PALETTE_START) % PALETTE_SIZE
  }

  /** In grayscale mode a palette write is meant to leave the low four bits alone. */
  function PaletteByte(m: PpuMemory, addr: nat, v: byte, grayscale: bool): byte
    requires m.Valid()
  {
    if grayscale then HighBits(v) | LowNibble(PaletteRead(m, addr)) else v
  }

  // --- reads and writes as the address decoding says

  function LowByte(addr: nat): byte { (addr % 256) as byte }

  predicate Pattern(addr: nat) { addr <= 0x1FFF }
  predicate Table(addr: nat) { 0x2000 <= addr <= 0x3EFF }
  predicate Palette(addr: nat) { 0x3F00 <= addr <= 0x3FFF }

  function TableCell(arrangement: Arrangement, addr: nat): (c: nat)
    ensures c < TABLE_CELLS
  {
    arrangement.ResolveAddress(addr) % TABLE_CELLS
  }

  function Written(m: PpuMemory, arrangement: Arrangement, addr: nat, v: byte, grayscale: bool): (r: PpuMemory)
    requires m.Valid() && addr <= 0xFFFF
    ensures r.Valid()
  {
    if Pattern(addr) then (if m.chr != [] && m.writable then m.(chr := m.chr[addr % |m.chr| := v]) else m)
    else if Table(addr) then m.(tables := m.tables[TableCell(arrangement, addr) := v])
    else if Palette(addr) then PaletteWrite(m, PaletteIndex(addr), PaletteByte(m, addr, v, grayscale))
    else m
  }

  /** What is stored at an address; without pattern memory an address answers for itself. */
  function Stored(m: PpuMemory, arrangement: Arrangement, addr: nat): byte
    requires m.Valid() && addr <= 0x3FFF
  {
    if Pattern(addr) then (if m.chr != [] then m.chr[addr % |m.chr|] else LowByte(addr))
    else if Table(addr) then m.tables[TableCell(arrangement, addr)]
    else PaletteRead(m, PaletteIndex(addr))
  }

  // --- which addresses are the same place

  datatype Place = InPattern(at: nat) | InTable(cell: nat) | InPalette(entry: nat)

  function PlaceOf(chrSize: nat, arrangement: Arrangement, addr: nat): Place
    requires addr <= 0x3FFF
  {
    if Pattern(addr) then InPattern(if chrSize > 0 then addr % chrSize else addr)
    else if Table(addr) then InTable(TableCell(arrangement, addr))
    else InPalette(Entry(PaletteIndex(addr)))
  }

  /** $10, $14, $18 and $1C are the same entries as $00, $04, $08 and $0C. */
  function Entry(i: nat): nat {
    if i == 0x10 || i == 0x14 || i == 0x18 || i == 0x1C then i - 0x10 else i
  }

  /** Writes to `addr` are kept: everywhere but in pattern ROM, in missing memory and beyond the palette. */
  predicate Takes(chrSize: nat, writable: bool, addr: nat) {
    addr <= 0x3FFF && (Pattern(addr) ==> chrSize > 0 && writable)
  }

  /** The place and the bits that a write to `addr` reaches. */
  function Kept(addr: nat, v: byte): byte {
    if Palette(addr) then SixBits(v) else v
  }

  lemma ZeroEntries(i: nat, j: nat)
    requires i < 32 && j < 32
    ensures ZeroEntry(i) && ZeroEntry(j) ==> (i % 16 / 4 == j % 16 / 4 <==> Entry(i) == Entry(j))
    ensures Entry(i) == Entry(j) ==> (ZeroEntry(i) <==> ZeroEntry(j))
    ensures !ZeroEntry(i) ==> Entry(i) == i
  {
    assert ZeroEntry(i) ==> i % 16 == Entry(i);
    assert ZeroEntry(j) ==> j % 16 == Entry(j);
  }

  lemma PaletteReaches(m: PpuMemory, i: nat, v: byte, j: nat)
    requires m.Valid() && i < PALETTE_SIZE && j < PALETTE_SIZE
    ensures PaletteRead(PaletteWrite(m, i, v), j) == if Entry(i) == Entry(j) then SixBits(v) else PaletteRead(m, j)
  {
    hide SixBits, ZeroEntry, Entry;
    ZeroEntries(i, j);
    ZeroEntries(j, i);
    assert i % PALETTE_SIZE == i && j % PALETTE_SIZE == j;
  }

  lemma PaletteKeeps(m: PpuMemory, i: nat, v: byte)
    requires m.Valid()
    ensures var w := PaletteWrite(m, i, v); w == m.(zeros := w.zeros, palettes := w.palettes)
  {
    hide SixBits;
  }

  lemma OtherPalette(m: PpuMemory, w: PpuMemory, i: nat)
    requires m.Valid() && w.Valid() && w.zeros == m.zeros && w.palettes == m.palettes
    ensures PaletteRead(w, i) == PaletteRead(m, i)
  {
  }

  /** A write changes what is read at exactly the addresses that mirror it, if its place takes it. */
  lemma WriteReaches(m: PpuMemory, arrangement: Arrangement, a: nat, v: byte, b: nat)
    requires m.Valid() && a <= 0xFFFF && b <= 0x3FFF
    ensures var w := Written(m, arrangement, a, v, false);
      && |w.chr| == |m.chr| && w.writable == m.writable
      && Stored(w, arrangement, b)
         == if Takes(|m.chr|, m.writable, a) && PlaceOf(|m.chr|, arrangement, a) == PlaceOf(|m.chr|, arrangement, b) then Kept(a, v)
            else Stored(m, arrangement, b)
  {
    hide TableCell, SixBits, LowByte, PaletteIndex, PaletteRead, PaletteWrite, Entry;
    if Palette(a) {
      PaletteKeeps(m, PaletteIndex(a), v);
      if Palette(b) {
        PaletteReaches(m, PaletteIndex(a), v, PaletteIndex(b));
      }
    } else if Palette(b) {
      OtherPalette(m, Written(m, arrangement, a, v, false), PaletteIndex(b));
    }
  }

  // --- whole runs

  datatype Access = Access(addr: nat, data: byte)

  function WriteAll(m: PpuMemory, arrangement: Arrangement, ws: seq<Access>): (r: PpuMemory)
    requires m.Valid() && (forall i :: 0 <= i < |ws| ==> ws[i].addr <= 0xFFFF)
    ensures r.Valid()
  {
    if ws == [] then m
    else
      var w := ws[|ws| - 1];
      Written(WriteAll(m, arrangement, ws[..|ws| - 1]), arrangement, w.addr, w.data, false)
  }

  predicate Reaches(m: PpuMemory, arrangement: Arrangement, w: Access, b: nat)
    requires b <= 0x3FFF
  {
    Takes(|m.chr|, m.writable, w.addr) && PlaceOf(|m.chr|, arrangement, w.addr) == PlaceOf(|m.chr|, arrangement, b)
  }

  /** A read returns the last value written to any address that mirrors it, or what was there at first. */
  lemma {:induction false} LastWriteWins(m: PpuMemory, arrangement: Arrangement, ws: seq<Access>, b: nat)
    requires m.Valid() && (forall i :: 0 <= i < |ws| ==> ws[i].addr <= 0xFFFF) && b <= 0x3FFF
    ensures var all := WriteAll(m, arrangement, ws);
      var r := Stored(all, arrangement, b);
      && |all.chr| == |m.chr| && all.writable == m.writable
      && ((forall i :: 0 <= i < |ws| ==> !Reaches(m, arrangement, ws[i], b)) ==> r == Stored(m, arrangement, b))
      && (forall k {:trigger Reaches(m, arrangement, ws[k], b)} :: 0 <= k < |ws| && Reaches(m, arrangement, ws[k], b)
            && (forall j :: k < j < |ws| ==> !Reaches(m, arrangement, ws[j], b))
            ==> r == Kept(ws[k].addr, ws[k].data))
    decreases |ws|
  {
    hide Written, Stored, PlaceOf, Kept, Takes;
    if ws != [] {
      var n := |ws| - 1;
      var most := ws[..n];
      LastWriteWins(m, arrangement, most, b);
      WriteReaches(WriteAll(m, arrangement, most), arrangement, ws[n].addr, ws[n].data, b);
      if !Reaches(m, arrangement, ws[n], b) {
        forall k {:trigger Reaches(m, arrangement, ws[k], b)} | 0 <= k < |ws| && Reaches(m, arrangement, ws[k], b)
            && (forall j :: k < j < |ws| ==> !Reaches(m, arrangement, ws[j], b))
          ensures Stored(WriteAll(m, arrangement, ws), arrangement, b) == Kept(ws[k].addr, ws[k].data)
        {
          assert most[k] == ws[k];
          assert forall j :: k < j < |most| ==> most[j] == ws[j];
        }
      }
    }
  }

  /** Nametable memory has room for two tables, so the four-screen layout falls onto the horizontal one. */
  lemma FourScreenFolds(addr: nat)
    requires Table(addr)
    ensures TableCell(FourScreen, addr) == TableCell(Horizontal, addr)
  {
    var a := addr % 0x1000;
    assert a % 0x800 == (a / 0x400 % 2) * 0x400 + a % 0x400;
  }

  // --- grayscale

  lemma KeepsNibble(v: byte, old_: byte, read: byte)
    ensures LowNibble(SixBits(HighBits(v) | LowNibble(read))) == LowNibble(old_) <==> LowNibble(read) == LowNibble(old_)
  {
  }

  /**
   A grayscale write leaves the low four bits of the entry alone exactly if the entry is none of the four
   zero entries, or the low four bits of the zero entry already equal those hidden behind it.
   */
  lemma GrayscaleWrite(m: PpuMemory, arrangement: Arrangement, addr: nat, v: byte)
    requires m.Valid() && Palette(addr)
    ensures var i := PaletteIndex(addr);
      LowNibble(Stored(Written(m, arrangement, addr, v, true), arrangement, addr)) == LowNibble(Stored(m, arrangement, addr))
      <==> !ZeroEntry(i) || LowNibble(m.zeros[i % 16 / 4]) == LowNibble(m.palettes[i])
  {
    hide LowNibble, SixBits, HighBits, TableCell, PaletteRead, PaletteWrite, PaletteIndex, ZeroEntry;
    Unreduced(addr);
    GrayscaleEntry(m, PaletteIndex(addr), addr, v);
  }

  lemma Unreduced(addr: nat)
    requires Palette(addr)
    ensures addr % PALETTE_SIZE == PaletteIndex(addr)
  {
  }

  lemma GrayscaleEntry(m: PpuMemory, i: nat, addr: nat, v: byte)
    requires m.Valid() && addr >= PALETTE_SIZE && addr % PALETTE_SIZE == i
    ensures LowNibble(PaletteRead(PaletteWrite(m, i, HighBits(v) | LowNibble(PaletteRead(m, addr))), i)) == LowNibble(PaletteRead(m, i))
       <==> !ZeroEntry(i) || LowNibble(m.zeros[i % 16 / 4]) == LowNibble(m.palettes[i])
  {
    hide LowNibble, SixBits, HighBits, PaletteWrite, ZeroEntry, Entry;
    var w := HighBits(v) | LowNibble(PaletteRead(m, addr));
    PaletteReaches(m, i, w, i);
    KeepsNibble(v, PaletteRead(m, i), PaletteRead(m, addr));
    assert PaletteRead(m, addr) == m.palettes[i];
    assert i % PALETTE_SIZE == i;
  }

  // --- the cartridge's table of read handlers

  datatype Handler = FromMemory | FromAddress | FromNametable | Unmapped

  /** The handler by plain address match. */
  function HandlerFor(addr: nat, hasMemory: bool): Handler {
    if Pattern(addr) then (if hasMemory then FromMemory else FromAddress)
    else if Table(addr) then FromNametable
    else Unmapped
  }

  class PaletteRam {
    const zeroBits: array<byte>
    const palettes: array<byte>

    predicate Valid()
      reads this
    {
      zeroBits.Length == 4 && palettes.Length == PALETTE_SIZE && zeroBits != palettes
    }

    constructor ()
      ensures Valid() && fresh(zeroBits) && fresh(palettes)
      ensures (forall i :: 0 <= i < 4 ==> zeroBits[i] == 0) && (forall i :: 0 <= i < PALETTE_SIZE ==> palettes[i] == 0)
    {
      var zeros := new byte[4](_ => 0);
      var cells := new byte[PALETTE_SIZE](_ => 0);
      zeroBits, palettes := zeros, cells;
    }

    function View(chr: seq<byte>, writable: bool, tables: seq<byte>): PpuMemory
      requires Valid()
      reads this, zeroBits, palettes
    {
      PpuMemory(chr, writable, tables, zeroBits[..], palettes[..])
    }

    method Read(addr: nat) returns (v: byte)
      requires Valid()
      ensures forall chr, writable, tables {:trigger View(chr, writable, tables)} :: |tables| == TABLE_CELLS ==>
                v == PaletteRead(View(chr, writable, tables), addr)
    {
      match addr {
        case 0x0 | 0x4 | 0x8 | 0xC | 0x10 | 0x14 | 0x18 | 0x1C => v := zeroBits[addr % 0x10 / 4];
        case _ =>
          assert addr < PALETTE_SIZE ==> !ZeroEntry(addr);
          v := palettes[addr % PALETTE_SIZE];
      }
    }

    method Write(addr: nat, data: byte)
      requires Valid()
      modifies zeroBits, palettes
      ensures forall chr, writable, tables {:trigger View(chr, writable, tables)} :: |tables| == TABLE_CELLS ==>
                View(chr, writable, tables) == PaletteWrite(old(View(chr, writable, tables)), addr, data)
    {
      match addr {
        case 0x0 | 0x4 | 0x8 | 0xC | 0x10 | 0x14 | 0x18 | 0x1C => zeroBits[addr % 0x10 / 4] := SixBits(data);
        case _ =>
          assert addr < PALETTE_SIZE ==> !ZeroEntry(addr);
          palettes[addr % PALETTE_SIZE] := SixBits(data);
      }
    }
  }

  class Nrom {
    const chr: array<byte>
    const writable: bool
    const lookup: array<Handler>
    const arrangement: Arrangement

    predicate Valid()
      reads this
    {
      lookup.Length == 0x10000 && lookup as object != chr as object
    }

    /** The lookup table agrees with the address match at every address. */
    ghost predicate Mapped()
      requires Valid()
      reads this, lookup
    {
      forall a {:trigger lookup[a]} :: 0 <= a <= 0xFFFF ==> lookup[a] == HandlerFor(a, chr.Length > 0)
    }

    constructor (chrSize: nat, writable: bool, arrangement: Arrangement)
      ensures Valid() && fresh(chr) && fresh(lookup) && this.arrangement == arrangement && chr.Length == chrSize
      ensures this.writable == writable
      ensures Mapped()
    {
      var cells := new byte[chrSize](_ => 0);
      chr := cells;
      var handlers := new Handler[0x10000](_ => Unmapped);
      lookup := handlers;
      this.arrangement := arrangement;
      this.writable := writable;
      new;
      BuildPpuMap();
    }

    /** The loop leaves out the last address, which keeps the handler it was made with. */
    method BuildPpuMap()
      requires Valid() && lookup[0xFFFF] == Unmapped
      modifies lookup
      ensures Mapped()
    {
      hide HandlerFor;
      for addr := 0 to 0xFFFF
        invariant forall a {:trigger lookup[a]} :: 0 <= a < addr ==> lookup[a] == HandlerFor(a, chr.Length > 0)
        invariant lookup[0xFFFF] == Unmapped
      {
        Matches(addr, chr.Length > 0);
        if addr <= 0x1FFF {
          lookup[addr] := if chr.Length > 0 then FromMemory else FromAddress;
        } else if addr <= 0x3EFF {
          lookup[addr] := FromNametable;
        } else {
          lookup[addr] := Unmapped;
        }
      }
      Matches(0xFFFF, chr.Length > 0);
    }
  }

  lemma Matches(addr: nat, hasMemory: bool)
    ensures HandlerFor(addr, hasMemory)
         == if addr <= 0x1FFF then (if hasMemory then FromMemory else FromAddress)
            else if addr <= 0x3EFF then FromNametable else Unmapped
  {
  }

  /** The bus as the PPU sees it. */
  class PpuBusView {
    const nrom: Nrom
    const nametableRam: array<byte>
    const paletteRam: PaletteRam
    var openBus: byte
    var grayscale: bool

    ghost predicate Valid()
      reads this, nrom, nrom.lookup, paletteRam
    {
      && nrom.Valid() && nrom.Mapped() && paletteRam.Valid() && nametableRam.Length == TABLE_CELLS
      && nametableRam != nrom.chr && nametableRam != paletteRam.zeroBits && nametableRam != paletteRam.palettes
      && nrom.chr != paletteRam.zeroBits && nrom.chr != paletteRam.palettes
      && nrom.lookup as object !in {nrom.chr as object, nametableRam as object, paletteRam.zeroBits as object, paletteRam.palettes as object}
    }

    function View(): (m: PpuMemory)
      requires nametableRam.Length == TABLE_CELLS && paletteRam.Valid()
      reads this, nrom, nrom.chr, nametableRam, paletteRam, paletteRam.zeroBits, paletteRam.palettes
      ensures m.Valid()
    {
      paletteRam.View(nrom.chr[..], nrom.writable, nametableRam[..])
    }

    constructor (nrom: Nrom)
      requires nrom.Valid() && nrom.Mapped()
      ensures Valid() && this.nrom == nrom && fresh(nametableRam) && fresh(paletteRam) && !grayscale
    {
      var palette := new PaletteRam();
      this.nrom := nrom;
      nametableRam := new byte[TABLE_CELLS](_ => 0);
      paletteRam := palette;
      openBus := 0;
      grayscale := false;
    }

    /**
     A read, which leaves the open bus as it is.  The two high bits of a palette entry come from it; where
     nothing answers, the low byte of the address is left on the lines.
     */
    method Read(addr: nat) returns (v: byte)
      requires Valid() && addr <= 0xFFFF
      ensures v == if Palette(addr) then Shade(Stored(View(), nrom.arrangement, addr), openBus, grayscale)
                   else if Table(addr) then Stored(View(), nrom.arrangement, addr)
                   else if Pattern(addr) then Stored(View(), nrom.arrangement, addr)
                   else LowByte(addr)
    {
      hide Shade;
      match nrom.lookup[addr] {
        case FromMemory => v := nrom.chr[addr % nrom.chr.Length];
        case FromAddress => v := LowByte(addr);
        case FromNametable => v := nametableRam[nrom.arrangement.ResolveAddress(addr) % TABLE_CELLS];
        case Unmapped =>
          if 0x3F00 <= addr <= 0x3FFF {
            var entry := paletteRam.Read((addr - PALETTE_START) % PALETTE_SIZE);
            assert entry == PaletteRead(paletteRam.View(nrom.chr[..], nrom.writable, nametableRam[..]), PaletteIndex(addr));
            v := Shade(entry, openBus, grayscale);
          } else {
            v := LowByte(addr);
          }
      }
    }

    method Write(addr: nat, data: byte)
      requires Valid() && addr <= 0xFFFF
      modifies nrom.chr, nametableRam, paletteRam.zeroBits, paletteRam.palettes
      ensures Valid() && View() == Written(old(View()), nrom.arrangement, addr, data, grayscale)
    {
      hide PaletteWrite, PaletteByte, TableCell;
      if addr <= 0x1FFF {
        WritePattern(addr, data);
      } else if addr <= 0x3EFF {
        WriteTable(addr, data);
      } else if addr <= 0x3FFF {
        WritePalette(addr, data);
      }
    }

    method WritePattern(addr: nat, data: byte)
      requires Valid()
      modifies nrom.chr
      ensures Valid()
      ensures var m := old(View());
        View() == if m.chr != [] && m.writable then m.(chr := m.chr[addr % |m.chr| := data]) else m
    {
      if nrom.chr.Length > 0 && nrom.writable {
        nrom.chr[addr % nrom.chr.Length] := data;
      }
    }

    method WriteTable(addr: nat, data: byte)
      requires Valid()
      modifies nametableRam
      ensures Valid()
      ensures View() == old(View()).(tables := old(View()).tables[TableCell(nrom.arrangement, addr) := data])
    {
      nametableRam[nrom.arrangement.ResolveAddress(addr) % TABLE_CELLS] := data;
    }

    /** In grayscale mode the entry is looked up without reducing the address. */
    method WritePalette(addr: nat, data: byte)
      requires Valid() && Palette(addr)
      modifies paletteRam.zeroBits, paletteRam.palettes
      ensures Valid()
      ensures View() == PaletteWrite(old(View()), PaletteIndex(addr), PaletteByte(old(View()), addr, data, grayscale))
    {
      hide PaletteWrite, PaletteRead;
      var entry := 0;
      if grayscale {
        entry := paletteRam.Read(addr);
        assert entry == PaletteRead(paletteRam.View(nrom.chr[..], nrom.writable, nametableRam[..]), addr);
      }
      paletteRam.Write((addr - PALETTE_START) % PALETTE_SIZE, if grayscale then HighBits(data) | LowNibble(entry) else data);
    }
  }

  /** Six bits of the entry, two of the open bus; grayscale clears the low four. */
  function Shade(entry: byte, openBus: byte, grayscale: bool): byte {
    var v := SixBits(entry) | (openBus & 0xC0);
    if grayscale then v & 0xF0 else v
  }
}
