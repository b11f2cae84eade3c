/** The PPU as an object that is stepped in place, proved against the dot on values. */
module PpuObject {
  import opened Bits
  import opened PpuTiming
  import opened PpuScroll
  import opened PpuBackground
  import opened PpuSprites
  import opened PpuModel
  import M = ObjectMemory

  class Ppu {
    var ctrlRegister: byte
    var maskRegister: byte
    var tRegister: word
    var fineXScroll: byte
    var dot: nat
    var scanline: nat
    var evenFrame: bool
    var dotCounter: nat
    var vRegister: word
    var addressBus: word
    var addressLatch: byte
    var shiftPatternLo: word
    var shiftPatternHi: word
    var shiftAttrLo: byte
    var shiftAttrHi: byte
    var shiftInAttrLo: bool
    var shiftInAttrHi: bool
    var bgNextTileId: byte
    var bgNextTileAttribute: byte
    var bgNextTileLsb: byte
    const oam: array<byte>
    var oamAddrRegister: nat
    var oamFetch: byte
    var isSoamClearActive: bool
    var oamIndex: nat
    var soamIndex: nat
    var soamDisable: bool
    var oamIncrement: nat
    var soamWriteCounter: nat
    var currentSpriteY: byte
    const spriteFifos: array<SpriteFifo>
    var currentSpriteTileId: byte
    const pixelBuffer: array<word>

    // --- the parts of the state

    function Regs(): Registers
      reads `ctrlRegister, `maskRegister, `tRegister, `fineXScroll
    {
      Registers(ctrlRegister, maskRegister, tRegister, fineXScroll)
    }

    function Time(): Timing
      reads `dot, `scanline, `evenFrame, `dotCounter
    {
      Timing(dot, scanline, evenFrame, dotCounter)
    }

    function Bg(): Background
      reads `vRegister, `addressBus, `addressLatch, `shiftPatternLo, `shiftPatternHi, `shiftAttrLo, `shiftAttrHi,
            `shiftInAttrLo, `shiftInAttrHi, `bgNextTileId, `bgNextTileAttribute, `bgNextTileLsb
    {
      Background(vRegister, addressBus, addressLatch, shiftPatternLo, shiftPatternHi, shiftAttrLo, shiftAttrHi,
                 shiftInAttrLo, shiftInAttrHi, bgNextTileId, bgNextTileAttribute, bgNextTileLsb)
    }

    function Eval(): Evaluator
      requires oam.Length == M.CELLS
      reads `oamAddrRegister, `oamFetch, `isSoamClearActive, `oamIndex, `soamIndex, `soamDisable, `oamIncrement,
            `soamWriteCounter, `currentSpriteY, oam
    {
      Evaluator(M.Primary(oam[..]), M.Secondary(oam[..]), oamAddrRegister, oamFetch, isSoamClearActive, oamIndex, soamIndex,
                soamDisable, oamIncrement, soamWriteCounter, currentSpriteY)
    }

    function Sprites(): SpriteUnit
      reads `currentSpriteTileId, spriteFifos
    {
      SpriteUnit(spriteFifos[..], currentSpriteTileId)
    }

    /** The arrays have their sizes and are distinct. */
    predicate Shaped() {
      && oam.Length == M.CELLS && spriteFifos.Length == 8 && pixelBuffer.Length == CELLS
      && oam as object != spriteFifos as object && oam as object != pixelBuffer as object
      && spriteFifos as object != pixelBuffer as object
    }

    function View(): PpuModel.Ppu
      requires Shaped()
      reads this, oam, spriteFifos, pixelBuffer
    {
      PpuModel.Ppu(Regs(), Time(), Bg(), Eval(), Sprites(), pixelBuffer[..])
    }

    constructor ()
      ensures Shaped() && fresh(oam) && fresh(spriteFifos) && fresh(pixelBuffer)
      ensures View().Valid() && Time() == POWER_ON
    {
      var cells := new byte[M.CELLS](_ => 0);
      var fifos := new SpriteFifo[8](_ => SpriteFifo(0, 0, 0, 0, false));
      var pixels := new word[CELLS](_ => 0);
      oam, spriteFifos, pixelBuffer := cells, fifos, pixels;
      ctrlRegister, maskRegister, tRegister, fineXScroll := 0, 0, 0, 0;
      dot, scanline, evenFrame, dotCounter := 0, 0, false, 0;
      vRegister, addressBus, addressLatch := 0, 0, 0;
      shiftPatternLo, shiftPatternHi, shiftAttrLo, shiftAttrHi, shiftInAttrLo, shiftInAttrHi := 0, 0, 0, 0, false, false;
      bgNextTileId, bgNextTileAttribute, bgNextTileLsb := 0, 0, 0;
      oamAddrRegister, oamFetch, isSoamClearActive, oamIndex, soamIndex, soamDisable := 0, 0, false, 0, 0, false;
      oamIncrement, soamWriteCounter, currentSpriteY, currentSpriteTileId := 4, 0, 0, 0;
    }

    // --- background

    method IncCoarseXScroll()
      modifies `vRegister
      ensures vRegister == IncCoarseX(old(vRegister))
    {
      if vRegister & 0x1F == 31 {
        vRegister := vRegister & 0xFFE0;
        vRegister := vRegister ^ 0x400;
      } else {
        vRegister := vRegister + 1;
      }
    }

    method IncYScroll()
      modifies `vRegister
      ensures vRegister == IncY(old(vRegister))
    {
      if vRegister & 0x7000 == 0x7000 {
        vRegister := vRegister & 0x8FFF;
        var y := (vRegister & 0x03E0) >> 5;
        if y == 29 {
          y := 0;
          vRegister := vRegister ^ 0x800;
        } else if y == 31 {
          y := 0;
        } else {
          y := y + 1;
        }
        vRegister := (vRegister & 0xFC1F) | (y << 5);
      } else {
        vRegister := vRegister + 0x1000;
      }
    }

    method ShiftBgShifters()
      modifies `shiftPatternLo, `shiftPatternHi, `shiftAttrLo, `shiftAttrHi
      ensures Bg() == Shifted(old(Bg()))
    {
      hide ShiftAttr, Dbl;
      shiftPatternLo := Dbl(shiftPatternLo);
      shiftPatternHi := Dbl(shiftPatternHi);
      shiftAttrLo := ShiftAttr(shiftAttrLo, shiftInAttrLo);
      shiftAttrHi := ShiftAttr(shiftAttrHi, shiftInAttrHi);
    }

    method ReloadShifters()
      modifies `shiftPatternLo, `shiftPatternHi, `shiftInAttrLo, `shiftInAttrHi
      ensures Bg() == Reloaded(old(Bg()))
    {
      hide ReloadWord, PaletteBit;
      shiftPatternLo := ReloadWord(shiftPatternLo, bgNextTileLsb);
      shiftPatternHi := ReloadWord(shiftPatternHi, addressLatch);
      shiftInAttrLo := PaletteBit(bgNextTileAttribute, 1);
      shiftInAttrHi := PaletteBit(bgNextTileAttribute, 2);
    }

    method DoDotFetch()
      requires dot >= 1
      modifies `addressBus, `bgNextTileId, `bgNextTileAttribute, `bgNextTileLsb
      ensures Bg() == DotFetch(old(Bg()), Phase(dot), ctrlRegister)
    {
      if (dot - 1) % 2 == 0 {
        DriveAddress();
      } else {
        TakeLatched();
      }
    }

    method DriveAddress()
      requires dot >= 1 && (dot - 1) % 2 == 0
      modifies `addressBus
      ensures Bg() == DotFetch(old(Bg()), Phase(dot), ctrlRegister)
    {
      hide NameBits, AttributeBits, PatternAddress, PaletteBits;
      match (dot - 1) % 8 {
        case 0 => addressBus := NameBits(vRegister);
        case 2 => addressBus := AttributeBits(vRegister);
        case 4 => addressBus := PatternAddress(ctrlRegister, bgNextTileId, vRegister, 0);
        case _ => addressBus := PatternAddress(ctrlRegister, bgNextTileId, vRegister, 8);
      }
    }

    method TakeLatched()
      requires dot >= 1 && (dot - 1) % 2 == 1
      modifies `bgNextTileId, `bgNextTileAttribute, `bgNextTileLsb
      ensures Bg() == DotFetch(old(Bg()), Phase(dot), ctrlRegister)
    {
      hide NameBits, AttributeBits, PatternAddress, PaletteBits;
      match (dot - 1) % 8 {
        case 1 => bgNextTileId := addressLatch;
        case 3 => bgNextTileAttribute := PaletteBits(addressLatch, vRegister);
        case 5 => bgNextTileLsb := addressLatch;
        case _ =>
      }
    }

    /** The pipeline behind the fetch: shift, and every eighth dot advance and reload. */
    method MovePipeline()
      requires dot >= 1
      modifies `vRegister, `shiftPatternLo, `shiftPatternHi, `shiftAttrLo, `shiftAttrHi, `shiftInAttrLo, `shiftInAttrHi
      ensures Bg() == Piped(old(Bg()), dot)
    {
      hide Shifted, Reloaded, IncCoarseX, IncY;
      ShiftBgShifters();
      if (dot - 1) % 8 == 7 {
        IncCoarseXScroll();
        ReloadShifters();
      }
      if dot == 256 {
        IncYScroll();
      }
    }

    // --- object memory

    method OamAt(addr: nat) returns (value: byte)
      requires Shaped() && addr < 256
      ensures value == if isSoamClearActive then 0xFF else M.Primary(oam[..])[addr]
    {
      value := if isSoamClearActive then 0xFF else oam[M.PrimaryCell(addr)];
    }

    method SecondaryOamRead(addr: nat) returns (value: byte)
      requires Shaped()
      ensures value == M.Secondary(oam[..])[addr % 32]
    {
      M.LowBits(addr);
      value := oam[M.SecondaryCell(addr)];
    }

    method SecondaryOamWrite(addr: nat, data: byte)
      requires Shaped()
      modifies oam
      ensures M.Primary(oam[..]) == old(M.Primary(oam[..]))
      ensures M.Secondary(oam[..]) == if soamDisable then old(M.Secondary(oam[..])) else old(M.Secondary(oam[..]))[addr % 32 := data]
    {
      hide M.Primary, M.Secondary;
      if !soamDisable {
        M.SecondaryWritten(oam[..], addr, data);
        ghost var cells := oam[..];
        oam[M.SecondaryCell(addr)] := data;
        assert oam[..] == cells[M.SecondaryCell(addr) := data];
      }
    }

    /** A write through the port; on a line that is drawn it is dropped. */
    method WriteOam(data: byte)
      requires Shaped() && oamAddrRegister < 256
      modifies `oamAddrRegister, oam
      ensures oamAddrRegister < 256
      ensures M.Port(oam[..], oamAddrRegister)
           == M.WritePort(old(M.Port(oam[..], oamAddrRegister)), data, scanline <= LAST_VISIBLE || scanline == PRE_RENDER)
    {
      hide M.PrimaryCell;
      if scanline <= LAST_VISIBLE || scanline == PRE_RENDER {
        oamAddrRegister := (oamAddrRegister + 4) % 256;
      } else {
        var stored := M.StoredBits(oamAddrRegister, data);
        oam[M.PrimaryCell(oamAddrRegister)] := stored;
        oamAddrRegister := (oamAddrRegister + 1) % 256;
      }
    }

    method InitSoam()
      requires Shaped() && Eval().Valid() && 1 <= dot <= 64 && !soamDisable && isSoamClearActive
      modifies `oamAddrRegister, `oamFetch, oam
      ensures Eval() == ClearDot(old(Eval()), dot)
    {
      hide M.Primary, M.Secondary;
      if (dot - 1) % 2 == 0 {
        oamAddrRegister := dot - 1;
        oamFetch := OamAt(oamAddrRegister);
      } else {
        SecondaryOamWrite((dot - 1) / 2, oamFetch);
      }
    }

    function Height(): byte
      reads `ctrlRegister
    {
      if ctrlRegister & 0x20 == 0 then 8 else 16
    }

    method SpriteEval()
      requires Shaped() && Eval().Valid() && 65 <= dot <= 256
      modifies `oamAddrRegister, `oamFetch, `oamIndex, `soamIndex, `soamDisable, `oamIncrement, `soamWriteCounter,
               `currentSpriteY, oam
      ensures Eval() == EvalDot(old(Eval()), dot, LineByte(scanline), Height(), scanline == PRE_RENDER)
    {
      hide M.Primary, M.Secondary, LineByte, InRange, Height;
      if (dot - 1) % 2 == 0 {
        oamAddrRegister := oamIndex;
        oamFetch := OamAt(oamAddrRegister);
        if soamWriteCounter == 0 {
          currentSpriteY := oamFetch;
        }
      } else {
        StoreSpriteByte();
      }
    }

    /** Writes the fetched byte, and moves on by a byte or by a sprite. */
    method StoreSpriteByte()
      requires Shaped() && Eval().Valid()
      modifies `oamIndex, `soamIndex, `soamDisable, `oamIncrement, `soamWriteCounter, oam
      ensures Eval() == StoreSprite(old(Eval()), LineByte(scanline), Height(), scanline == PRE_RENDER)
    {
      hide M.Primary, M.Secondary, LineByte, InRange, Height, Judged, ClosedIfFull, MovedOn;
      var data := oamFetch;
      if scanline == PRE_RENDER {
        data := SecondaryOamRead(soamIndex);
      }
      SecondaryOamWrite(soamIndex, data);
      Judge();
      CloseIfFull();
      MoveOn();
    }

    method Judge()
      requires Shaped() && Eval().Valid()
      modifies `soamIndex, `oamIncrement, `soamWriteCounter
      ensures Eval() == Judged(old(Eval()), LineByte(scanline), Height(), scanline == PRE_RENDER)
    {
      hide M.Primary, M.Secondary, LineByte, InRange, Height;
      if InRange(currentSpriteY, LineByte(scanline), Height()) {
        oamIncrement := 1;
        soamIndex := (soamIndex + 1) % 256;
        soamWriteCounter := if soamWriteCounter == 3 then 0 else soamWriteCounter + 1;
        if scanline == PRE_RENDER {
          soamWriteCounter := 0;
        }
      } else {
        soamWriteCounter := 0;
        oamIncrement := 4;
      }
    }

    method CloseIfFull()
      requires Shaped() && Eval().Valid()
      modifies `soamDisable, `oamIncrement
      ensures Eval() == ClosedIfFull(old(Eval()))
    {
      hide M.Primary, M.Secondary;
      if soamIndex >= 32 {
        oamIncrement := 5;
        soamDisable := true;
      }
    }

    method MoveOn()
      requires Shaped() && Eval().Valid()
      modifies `soamDisable, `oamIndex
      ensures Eval() == MovedOn(old(Eval()), scanline == PRE_RENDER)
    {
      hide M.Primary, M.Secondary;
      if scanline != PRE_RENDER {
        soamDisable := soamDisable || oamIndex + oamIncrement >= 256;
        oamIndex := (oamIndex + oamIncrement) % 256;
      }
    }

    /** Evaluation starts over at dot 0; the pre-render line does not write. */
    method StartEvaluator()
      requires Shaped() && Eval().Valid()
      modifies `oamIndex, `soamIndex, `soamDisable, `oamIncrement, `soamWriteCounter, `currentSpriteY
      ensures Eval() == EvaluatorStart(old(Eval()), dot, scanline == PRE_RENDER)
    {
      hide M.Primary, M.Secondary;
      if dot == 0 {
        soamIndex := 0;
        oamIndex := 0;
        currentSpriteY := 0;
        oamIncrement := 4;
        soamWriteCounter := 0;
        soamDisable := false;
      }
      if scanline == PRE_RENDER && dot == 1 {
        soamDisable := true;
      }
    }

    /** Clearing and evaluation, on the dots that do not fetch sprites. */
    method RunEvaluator()
      requires Shaped() && Eval().Valid() && !SpriteWindow(dot)
      modifies `oamAddrRegister, `oamFetch, `isSoamClearActive, `oamIndex, `soamIndex, `soamDisable, `oamIncrement,
               `soamWriteCounter, `currentSpriteY, oam
      ensures Eval() == EvaluatorDot(old(Eval()), dot, LineByte(scanline), Height(), scanline == PRE_RENDER)
    {
      hide M.Primary, M.Secondary, LineByte, InRange, Height, EvalDot, ClearDot, EvaluatorStart;
      StartEvaluator();
      if 1 <= dot <= 64 {
        ClearAgain(Eval(), dot);
        soamDisable := false;
        isSoamClearActive := true;
        InitSoam();
      } else {
        isSoamClearActive := false;
        if 65 <= dot <= 256 {
          SpriteEval();
        }
      }
    }

    // --- sprite units

    /** The indices are reset while sprites are fetched. */
    method BeginFetch()
      requires Shaped() && SpriteWindow(dot)
      modifies `soamIndex, `oamAddrRegister, `oamIndex, `isSoamClearActive
      ensures Eval() == old(Eval()).(clearing := false, soamIndex := SlotIndex(old(Eval()), dot), oamAddr := 0, oamIndex := 0)
    {
      hide M.Primary, M.Secondary;
      isSoamClearActive := false;
      if dot == 257 {
        soamIndex := 0;
      }
      oamAddrRegister := 0;
      oamIndex := 0;
    }

    /** One of the eight dots in which a unit is loaded from its slot. */
    method FetchSprite(mem: Memory)
      requires Shaped() && Eval().Valid() && SpriteWindow(dot)
      modifies `soamIndex, `oamAddrRegister, `oamIndex, `currentSpriteY, `currentSpriteTileId, `addressBus, `isSoamClearActive, spriteFifos
      ensures Eval() == EvaluatorDot(old(Eval()), dot, LineByte(scanline), Height(), scanline == PRE_RENDER)
      ensures var e := old(Eval());
        var source := UnitAddress(ctrlRegister, e.soam, old(Sprites()), scanline, e.spriteY, SlotIndex(e, dot));
        && addressBus == (if Phase(dot) == 2 then source else old(addressBus))
        && Sprites() == LoadedUnits(old(Sprites()), Phase(dot), e.soam, SlotIndex(e, dot),
                                    InRange(e.spriteY, LineByte(scanline), Height()), mem(source), mem(old(addressBus) + 8))
    {
      hide M.Primary, M.Secondary, LineByte, InRange, Height, LoadedUnits, UnitAddress, Sprites, EvaluatorDot, Phase,
        SlotIndex;
      ghost var e := Eval();
      FetchingDot(e, dot, LineByte(scanline), Height(), scanline == PRE_RENDER);
      BeginFetch();
      EvalParts();
      LoadUnit(mem);
      EndFetch();
    }

    method EndFetch()
      requires dot >= 1 && soamIndex < 256
      modifies `soamIndex
      ensures soamIndex == if Phase(dot) == 7 then (old(soamIndex) + 4) % 256 else old(soamIndex)
    {
      if (dot - 1) % 8 == 7 {
        soamIndex := (soamIndex + 4) % 256;
      }
    }

    lemma EvalParts()
      requires Shaped()
      ensures Eval().soamIndex == soamIndex && Eval().spriteY == currentSpriteY && Eval().soam == M.Secondary(oam[..])
    {
    }

    method LoadUnit(mem: Memory)
      requires Shaped() && dot >= 1 && soamIndex < 256
      modifies `currentSpriteY, `currentSpriteTileId, `addressBus, spriteFifos
      ensures var soam, s := M.Secondary(oam[..]), soamIndex;
        var source := UnitAddress(ctrlRegister, soam, old(Sprites()), scanline, old(currentSpriteY), s);
        && currentSpriteY == (if Phase(dot) == 0 then soam[s % 32] else old(currentSpriteY))
        && addressBus == (if Phase(dot) == 2 then source else old(addressBus))
        && Sprites() == LoadedUnits(old(Sprites()), Phase(dot), soam, s, InRange(old(currentSpriteY), LineByte(scanline), Height()),
                                    mem(source), mem(old(addressBus) + 8))
    {
      hide M.Primary, M.Secondary, LineByte, InRange, Height, PatternRow, SpriteAddress;
      match (dot - 1) % 8 {
        case 0 =>
          currentSpriteY := SecondaryOamRead(soamIndex);
          SameFifo(spriteFifos[..], soamIndex / 4 % 8);
        case 2 =>
          LoadLowRow(mem);
        case 3 =>
          LoadHighRow(mem);
        case _ =>
          LoadSlot();
      }
    }

    /** The attribute of a unit, or its counter. */
    method LoadSlot()
      requires Shaped() && dot >= 1 && soamIndex < 256 && Phase(dot) != 0 && Phase(dot) != 2 && Phase(dot) != 3
      modifies spriteFifos
      ensures forall inRange, lo, hi {:trigger LoadedUnits(old(Sprites()), Phase(dot), M.Secondary(oam[..]), soamIndex, inRange, lo, hi)} ::
                Sprites() == LoadedUnits(old(Sprites()), Phase(dot), M.Secondary(oam[..]), soamIndex, inRange, lo, hi)
    {
      hide M.Primary, M.Secondary;
      var i := soamIndex / 4 % 8;
      if (dot - 1) % 8 == 1 {
        var attribute := SecondaryOamRead((soamIndex + 2) % 256);
        spriteFifos[i] := spriteFifos[i].(attribute := attribute);
      } else {
        var counter := SecondaryOamRead((soamIndex + 3) % 256);
        spriteFifos[i] := spriteFifos[i].(counter := counter);
      }
    }

    method LoadLowRow(mem: Memory)
      requires Shaped() && dot >= 1 && soamIndex < 256 && Phase(dot) == 2
      modifies `currentSpriteTileId, `addressBus, spriteFifos
      ensures var soam := M.Secondary(oam[..]);
        && addressBus == UnitAddress(ctrlRegister, soam, old(Sprites()), scanline, currentSpriteY, soamIndex)
        && forall hi {:trigger LoadedUnits(old(Sprites()), 2, soam, soamIndex, InRange(currentSpriteY, LineByte(scanline), Height()), mem(addressBus), hi)} ::
             Sprites() == LoadedUnits(old(Sprites()), 2, soam, soamIndex, InRange(currentSpriteY, LineByte(scanline), Height()), mem(addressBus), hi)
    {
      hide M.Primary, M.Secondary, LineByte, InRange, Height, PatternRow, SpriteAddress;
      var i := soamIndex / 4 % 8;
      var f := spriteFifos[i];
      var inRange := InRange(currentSpriteY, LineByte(scanline), Height());
      currentSpriteTileId := SecondaryOamRead((soamIndex + 1) % 256);
      addressBus := SpriteAddress(ctrlRegister, currentSpriteTileId, f.attribute, LineByte(scanline), currentSpriteY);
      spriteFifos[i] := f.(lo := PatternRow(mem(addressBus), f.attribute, inRange));
    }

    method LoadHighRow(mem: Memory)
      requires Shaped() && dot >= 1 && soamIndex < 256 && Phase(dot) == 3
      modifies spriteFifos
      ensures forall lo {:trigger LoadedUnits(old(Sprites()), 3, M.Secondary(oam[..]), soamIndex,
                                              InRange(currentSpriteY, LineByte(scanline), Height()), lo, mem(addressBus + 8))} ::
                Sprites() == LoadedUnits(old(Sprites()), 3, M.Secondary(oam[..]), soamIndex,
                                         InRange(currentSpriteY, LineByte(scanline), Height()), lo, mem(addressBus + 8))
    {
      hide M.Primary, M.Secondary, LineByte, InRange, Height, PatternRow;
      var i := soamIndex / 4 % 8;
      var f := spriteFifos[i];
      var inRange := InRange(currentSpriteY, LineByte(scanline), Height());
      var counter := SecondaryOamRead((soamIndex + 3) % 256);
      spriteFifos[i] := f.(counter := counter, hi := PatternRow(mem(addressBus + 8), f.attribute, inRange));
    }

    method StartCounting()
      requires Shaped()
      modifies spriteFifos
      ensures Sprites() == Counting(old(Sprites()))
    {
      for i := 0 to 8
        invariant forall j :: 0 <= j < 8 ==> spriteFifos[j] == if j < i then old(spriteFifos[j]).(counting := true) else old(spriteFifos[j])
      {
        spriteFifos[i] := spriteFifos[i].(counting := true);
      }
    }

    method CountDownSprites()
      requires Shaped()
      modifies spriteFifos
      ensures spriteFifos[..] == MapFifos(old(spriteFifos[..]), CountedDown)
    {
      for i := 0 to 8
        invariant forall j :: 0 <= j < 8 ==> spriteFifos[j] == if j < i then CountedDown(old(spriteFifos[j])) else old(spriteFifos[j])
      {
        var s := spriteFifos[i];
        if s.counting && s.counter > 0 {
          s := s.(counter := s.counter - 1);
          if s.counter == 0 {
            s := s.(counting := false);
          }
          spriteFifos[i] := s;
        }
      }
    }

    /** Shifts every unit that has counted down, and returns the first opaque pattern that came out. */
    method ShiftOutSprites() returns (front: SpritePixel)
      requires Shaped()
      modifies spriteFifos
      ensures spriteFifos[..] == MapFifos(old(spriteFifos[..]), ShiftedOut)
      ensures front == FrontSprite(old(spriteFifos[..]))
    {
      hide UnitPattern;
      ghost var before := spriteFifos[..];
      front := SpritePixel(0, 0);
      for i := 0 to 8
        invariant forall j :: 0 <= j < 8 ==> spriteFifos[j] == if j < i then ShiftedOut(before[j]) else before[j]
        invariant front == FrontSprite(before[..i])
      {
        var s := spriteFifos[i];
        var pattern := UnitPattern(s);
        assert before[..i + 1] == before[..i] + [s];
        FrontGrows(before[..i], s);
        spriteFifos[i] := ShiftedOut(s);
        if pattern != 0 && front.pattern == 0 {
          front := SpritePixel(pattern, s.attribute);
        }
      }
      assert before[..8] == before;
    }

    // --- drawing

    /** The pixel of a rendered dot. */
    method DrawPixel(mem: Memory)
      requires Shaped() && Drawn(Time()) && fineXScroll < 8
      modifies spriteFifos, pixelBuffer
      ensures spriteFifos[..] == MapFifos(old(spriteFifos[..]), ShiftedOut)
      ensures pixelBuffer[..] == old(pixelBuffer[..])[Cell(Time()) := Shown(Bg(), old(Sprites()), Regs(), mem)]
    {
      hide BackgroundPixel, SpriteColor, Color, ShiftedOut;
      var background := BackgroundPixel(Bg(), fineXScroll);
      var front := ShiftOutSprites();
      FrontPattern(old(spriteFifos[..]));
      var sprite := SpriteColor(front);
      SpriteColors(front);
      var address;
      if background == 0x3F00 && sprite == 0x3F10 {
        address := 0x3F00;
      } else if background == 0x3F00 && sprite != 0x3F10 {
        address := sprite;
      } else if background != 0x3F00 && sprite == 0x3F10 {
        address := background;
      } else if front.attribute & 0x20 == 0 {
        address := sprite;
      } else {
        address := background;
      }
      assert address == PixelAddress(background, front);
      pixelBuffer[Cell(Time())] := Color(mem(address), Regs().Emphasis());
    }

    // --- one dot

    /** The state is `p`, part by part. */
    ghost predicate Is(p: PpuModel.Ppu)
      requires Shaped()
      reads this, oam, spriteFifos, pixelBuffer
    {
      && p.regs == Regs() && p.time == Time() && p.bg == Bg() && p.eval == Eval() && p.sprites == Sprites() && p.pixels == pixelBuffer[..]
    }

    /** Clearing, evaluating or fetching sprites. */
    method WorkOnUnits(ghost p: PpuModel.Ppu, mem: Memory)
      requires Shaped() && p.Valid() && Is(p)
      modifies `oamAddrRegister, `oamFetch, `isSoamClearActive, `oamIndex, `soamIndex, `soamDisable, `oamIncrement,
               `soamWriteCounter, `currentSpriteY, `currentSpriteTileId, `addressBus, oam, spriteFifos
      ensures Eval() == EvaluatorDot(p.eval, dot, LineByte(scanline), Height(), scanline == PRE_RENDER)
      ensures addressBus == if SpriteWindow(dot) && Phase(dot) == 2 then NextSpriteAddress(p) else old(addressBus)
      ensures Sprites() == UnitsPrepared(p, mem)
    {
      hide M.Primary, M.Secondary, LineByte, InRange, LoadedUnits, UnitAddress, EvaluatorDot, Phase, SlotIndex,
        Counting, Sprites;
      HeightAgrees();
      if SpriteWindow(dot) {
        FetchSprite(mem);
      } else {
        RunEvaluator();
        if dot == 339 {
          StartCounting();
        }
      }
    }

    /** Of the background, such work touches the address bus alone. */
    twostate lemma OnlyAddressBus()
      requires unchanged(`vRegister, `addressLatch, `shiftPatternLo, `shiftPatternHi, `shiftAttrLo, `shiftAttrHi,
                         `shiftInAttrLo, `shiftInAttrHi, `bgNextTileId, `bgNextTileAttribute, `bgNextTileLsb)
      ensures Bg() == old(Bg()).(addressBus := addressBus) && old(Bg()).addressBus == old(addressBus)
    {
    }

    /** Of the background, work on sprites only touches the address bus. */
    method WorkOnSprites(ghost p: PpuModel.Ppu, mem: Memory)
      requires Shaped() && p.Valid() && Is(p)
      modifies `oamAddrRegister, `oamFetch, `isSoamClearActive, `oamIndex, `soamIndex, `soamDisable, `oamIncrement,
               `soamWriteCounter, `currentSpriteY, `currentSpriteTileId, `addressBus, oam, spriteFifos
      ensures Eval() == EvaluatorDot(p.eval, p.time.dot, LineByte(p.time.scanline), p.regs.Height(), p.time.scanline == PRE_RENDER)
      ensures Bg() == p.bg.(addressBus := if SpriteWindow(p.time.dot) && Phase(p.time.dot) == 2 then NextSpriteAddress(p) else p.bg.addressBus)
      ensures Sprites() == UnitsPrepared(p, mem)
      ensures Time() == p.time && Regs() == p.regs && pixelBuffer[..] == p.pixels
      ensures fineXScroll < 8 && scanline <= PRE_RENDER && dot == p.time.dot && ctrlRegister == p.regs.ctrl
    {
      hide EvaluatorDot, LineByte, UnitsPrepared, NextSpriteAddress, Eval, Sprites, Phase, Bg, Time, Regs, Height;
      ViewParts();
      HeightAgrees();
      WorkOnUnits(p, mem);
      HeightAgrees();
      OnlyAddressBus();
    }

    /** Drawing a pixel on a visible line, and moving the sprite units. */
    method DrawAndCount(mem: Memory)
      requires Shaped() && FetchWindow(dot) && fineXScroll < 8 && scanline <= PRE_RENDER
      modifies spriteFifos, pixelBuffer
      ensures Sprites() == UnitsMoved(old(Sprites()), Time())
      ensures pixelBuffer[..] == if Drawn(Time()) then old(pixelBuffer[..])[Cell(Time()) := Shown(Bg(), old(Sprites()), Regs(), mem)]
                                 else old(pixelBuffer[..])
    {
      hide Bg, MapFifos, Shown;
      if scanline <= LAST_VISIBLE && 1 <= dot <= 256 {
        DrawPixel(mem);
      }
      CountDownSprites();
    }

    /** Fetching the background, drawing, and moving both pipelines. */
    method FetchAndDraw(mem: Memory)
      requires Shaped() && FetchWindow(dot) && fineXScroll < 8 && scanline <= PRE_RENDER
      modifies `addressBus, `bgNextTileId, `bgNextTileAttribute, `bgNextTileLsb, `vRegister, `shiftPatternLo, `shiftPatternHi,
               `shiftAttrLo, `shiftAttrHi, `shiftInAttrLo, `shiftInAttrHi, spriteFifos, pixelBuffer
      ensures Bg() == PipelineDot(old(Bg()), dot, ctrlRegister)
      ensures Sprites() == UnitsMoved(old(Sprites()), Time())
      ensures pixelBuffer[..] == if Drawn(Time()) then old(pixelBuffer[..])[Cell(Time()) := Shown(old(Bg()), old(Sprites()), Regs(), mem)]
                                 else old(pixelBuffer[..])
    {
      hide Shown, Piped, DotFetch, Bg, UnitsMoved, Sprites, Time, Drawn;
      FetchShowsSame(Bg(), Phase(dot), Sprites(), Regs(), mem);
      DoDotFetch();
      DrawAndCount(mem);
      MovePipeline();
    }

    /** The scroll position is reloaded behind a line, and on the pre-render line. */
    method ReloadScroll()
      modifies `vRegister
      ensures Bg() == Rescrolled(old(Bg()), Time(), Regs())
    {
      hide CopyHorizontal, CopyVertical;
      if dot == 257 {
        vRegister := CopyHorizontal(vRegister, tRegister);
      }
      if 280 <= dot <= 304 && scanline == PRE_RENDER {
        vRegister := CopyVertical(vRegister, tRegister);
      }
    }

    /** A dot of a line that is rendered. */
    method RenderDot(ghost p: PpuModel.Ppu, mem: Memory)
      requires Shaped() && p.Valid() && Is(p) && p.regs.Rendering() && p.time.Rendered()
      modifies `oamAddrRegister, `oamFetch, `isSoamClearActive, `oamIndex, `soamIndex, `soamDisable, `oamIncrement,
               `soamWriteCounter, `currentSpriteY, `currentSpriteTileId, oam,
               `addressBus, `bgNextTileId, `bgNextTileAttribute, `bgNextTileLsb, `vRegister, `shiftPatternLo, `shiftPatternHi,
               `shiftAttrLo, `shiftAttrHi, `shiftInAttrLo, `shiftInAttrHi, spriteFifos, pixelBuffer
      ensures Eval() == EvaluatorDot(p.eval, p.time.dot, LineByte(p.time.scanline), p.regs.Height(), p.time.scanline == PRE_RENDER)
      ensures Bg() == BackgroundMoved(p.bg, p.time, p.regs, NextSpriteAddress(p))
      ensures Sprites() == SpriteDot(p, mem)
      ensures pixelBuffer[..] == if Drawn(p.time) then p.pixels[Cell(p.time) := Pixel(p, mem)] else p.pixels
    {
      hide EvaluatorDot, LineByte, Height, UnitsPrepared, UnitsMoved, NextSpriteAddress, Eval, Sprites, Bg, Time, Regs,
        View, PipelineDot, Rescrolled, Phase, Pixel, Drawn, Shown, Cell;
      WorkOnSprites(p, mem);
      PixelShown(p, Bg(), mem);
      DotParts(p, mem);
      hide SpriteDot, BackgroundMoved, PpuModel.Ppu.Valid;
      MovePixels(mem);
    }

    /** What the pipelines do on a rendered line. */
    method MovePixels(mem: Memory)
      requires Shaped() && fineXScroll < 8 && scanline <= PRE_RENDER
      modifies `addressBus, `bgNextTileId, `bgNextTileAttribute, `bgNextTileLsb, `vRegister, `shiftPatternLo, `shiftPatternHi,
               `shiftAttrLo, `shiftAttrHi, `shiftInAttrLo, `shiftInAttrHi, spriteFifos, pixelBuffer
      ensures Bg() == Rescrolled(if FetchWindow(dot) then PipelineDot(old(Bg()), dot, ctrlRegister) else old(Bg()), Time(), Regs())
      ensures Sprites() == UnitsMoved(old(Sprites()), Time())
      ensures pixelBuffer[..] == if Drawn(Time()) then old(pixelBuffer[..])[Cell(Time()) := Shown(old(Bg()), old(Sprites()), Regs(), mem)]
                                 else old(pixelBuffer[..])
    {
      hide UnitsMoved, Sprites, Bg, Regs, PipelineDot, Rescrolled, Shown;
      FetchingNotDrawn(Time());
      if FetchWindow(dot) {
        FetchAndDraw(mem);
      } else {
        NothingMoved(Sprites(), Time());
      }
      ReloadScroll();
    }

    lemma ViewParts()
      requires Shaped()
      ensures var p := View();
        && p.regs == Regs() && p.time == Time() && p.bg == Bg() && p.eval == Eval() && p.sprites == Sprites() && p.pixels == pixelBuffer[..]
      ensures Time().dot == dot && Time().scanline == scanline && Regs().fineX == fineXScroll && Regs().ctrl == ctrlRegister
      ensures Sprites().fifos == spriteFifos[..]
    {
    }

    /** A dot in blanking shows the backdrop, or nothing at all. */
    method BlankDot(mem: Memory)
      requires Shaped() && View().Valid() && !(Regs().Rendering() && Time().Rendered())
      modifies pixelBuffer
      ensures pixelBuffer[..] == if Drawn(Time()) then old(pixelBuffer[..])[Cell(Time()) := Pixel(old(View()), mem)] else old(pixelBuffer[..])
    {
      hide Color;
      if !Regs().Rendering() && scanline <= LAST_VISIBLE && 1 <= dot <= 256 {
        pixelBuffer[scanline * WIDTH + (dot - 1)] := Color(mem(0x3F00), 0);
      }
    }

    lemma HeightAgrees()
      ensures Height() == Regs().Height()
    {
    }

    /** The counters move on; an odd rendered frame is one dot shorter. */
    method AdvanceTime()
      modifies `dot, `scanline, `dotCounter
      ensures Time() == Advanced(old(Time()), Regs().Rendering())
    {
      var skipCycle := dot == LAST_DOT - 1 && scanline == PRE_RENDER && !evenFrame && Regs().Rendering();
      if skipCycle {
        dotCounter := dotCounter + 1;
      }
      dotCounter := dotCounter + 1;
      dot := dot + if skipCycle then 2 else 1;
      if dot > LAST_DOT {
        dot := 0;
        scanline := scanline + 1;
        if scanline > PRE_RENDER {
          scanline := 0;
        }
      }
    }

    method EnterDot()
      modifies `evenFrame
      ensures Time() == Entered(old(Time()))
    {
      if dot == 0 && scanline == 0 {
        evenFrame := !evenFrame;
      }
    }

    method LatchAddress(mem: Memory)
      modifies `addressLatch
      ensures Bg() == Latched(old(Bg()), mem)
    {
      addressLatch := mem(addressBus);
    }

    /** Everything in a dot but its counters and the address latch. */
    method RunDot(mem: Memory)
      requires Shaped() && View().Valid()
      modifies this, oam, spriteFifos, pixelBuffer
      ensures Regs() == old(Regs()) && Time() == old(Time())
      ensures var q := old(View());
        var live := q.regs.Rendering() && q.time.Rendered();
        && Bg() == (if live then BackgroundMoved(q.bg, q.time, q.regs, NextSpriteAddress(q)) else q.bg)
        && Eval() == (if live then EvaluatorDot(q.eval, q.time.dot, LineByte(q.time.scanline), q.regs.Height(), q.time.scanline == PRE_RENDER)
                      else q.eval)
        && Sprites() == (if live then SpriteDot(q, mem) else q.sprites)
        && pixelBuffer[..] == if Drawn(q.time) then q.pixels[Cell(q.time) := Pixel(q, mem)] else q.pixels
    {
      hide Regs, Time, Bg, Eval, Sprites, View, LineByte, EvaluatorDot, BackgroundMoved, NextSpriteAddress, SpriteDot,
        Pixel, Height, Drawn, Cell;
      ViewParts();
      HeightAgrees();
      if (scanline <= LAST_VISIBLE || scanline == PRE_RENDER) && Regs().Rendering() {
        RenderDot(View(), mem);
      } else {
        BlankDot(mem);
      }
    }

    /** A dot that has been entered as `q`. */
    method FinishDot(ghost q: PpuModel.Ppu, mem: Memory)
      requires Shaped() && q.Valid() && View() == q
      modifies this, oam, spriteFifos, pixelBuffer
      ensures Regs() == q.regs && Time() == Advanced(q.time, q.regs.Rendering())
      ensures var live := q.regs.Rendering() && q.time.Rendered();
        && Bg() == (if live then Latched(BackgroundMoved(q.bg, q.time, q.regs, NextSpriteAddress(q)), mem) else Latched(q.bg, mem))
        && Eval() == (if live then EvaluatorDot(q.eval, q.time.dot, LineByte(q.time.scanline), q.regs.Height(),
                                                q.time.scanline == PRE_RENDER)
                      else q.eval)
        && Sprites() == (if live then SpriteDot(q, mem) else q.sprites)
        && pixelBuffer[..] == if Drawn(q.time) then q.pixels[Cell(q.time) := Pixel(q, mem)] else q.pixels
    {
      hide Regs, Time, Bg, Eval, Sprites, View, LineByte, EvaluatorDot, BackgroundMoved, NextSpriteAddress, SpriteDot, Pixel,
        Advanced, Latched, Height, Drawn, Cell;
      ViewParts();
      RunDot(mem);
      LatchAddress(mem);
      AdvanceTime();
    }

    /** One dot does what the dot on values does. */
    method Step(mem: Memory)
      requires Shaped() && View().Valid()
      modifies this, oam, spriteFifos, pixelBuffer
      ensures View().Valid() && View() == PpuModel.Step(old(View()), mem)
    {
      hide Regs, Time, Bg, Eval, Sprites, View, LineByte, EvaluatorDot, BackgroundMoved, NextSpriteAddress, SpriteDot, Pixel,
        Advanced, Entered, Latched, Height, Drawn, Cell, PpuModel.Step;
      ghost var p := View();
      ViewParts();
      StepParts(p, mem);
      EnterDot();
      ViewParts();
      FinishDot(p.(time := Entered(p.time)), mem);
      ViewParts();
    }
  }

  /** The parts of a step, where `q` has entered the dot. */
  lemma StepParts(p: PpuModel.Ppu, mem: Memory)
    requires p.Valid()
    ensures var q := p.(time := Entered(p.time));
      var r := PpuModel.Step(p, mem);
      var live := q.regs.Rendering() && q.time.Rendered();
      && q.Valid()
      && r.regs == q.regs && r.time == Advanced(q.time, q.regs.Rendering())
      && r.bg == (if live then Latched(BackgroundMoved(q.bg, q.time, q.regs, NextSpriteAddress(q)), mem) else Latched(q.bg, mem))
      && r.eval == (if live then EvaluatorDot(q.eval, q.time.dot, LineByte(q.time.scanline), q.regs.Height(), q.time.scanline == PRE_RENDER)
                    else q.eval)
      && r.sprites == (if live then SpriteDot(q, mem) else q.sprites)
      && r.pixels == if Drawn(q.time) then q.pixels[Cell(q.time) := Pixel(q, mem)] else q.pixels
  {
    hide LineByte, EvaluatorDot, BackgroundMoved, NextSpriteAddress, SpriteDot, Pixel, Advanced, Latched;
  }

  /** Sprites are fetched where nothing is drawn. */
  lemma FetchingNotDrawn(t: Timing)
    ensures SpriteWindow(t.dot) ==> !FetchWindow(t.dot) && !Drawn(t)
    ensures !FetchWindow(t.dot) ==> !Drawn(t)
  {
  }

  /** The colour a rendered dot shows. */
  function Shown(b: Background, u: SpriteUnit, regs: Registers, mem: Memory): word
    requires regs.fineX < 8
  {
    Color(mem(PixelAddress(BackgroundPixel(b, regs.fineX), FrontSprite(u.fifos))), regs.Emphasis())
  }

  /** Preparing a dot that draws does not change what it shows. */
  lemma DotParts(p: PpuModel.Ppu, mem: Memory)
    requires p.Valid()
    ensures SpriteDot(p, mem) == UnitsMoved(UnitsPrepared(p, mem), p.time)
    ensures var f := p.bg.(addressBus := if SpriteWindow(p.time.dot) && Phase(p.time.dot) == 2 then NextSpriteAddress(p) else p.bg.addressBus);
      BackgroundMoved(p.bg, p.time, p.regs, NextSpriteAddress(p))
      == Rescrolled(if FetchWindow(p.time.dot) then PipelineDot(f, p.time.dot, p.regs.ctrl) else f, p.time, p.regs)
  {
    hide UnitsMoved, UnitsPrepared, NextSpriteAddress, Rescrolled, PipelineDot, Phase;
  }

  lemma PixelShown(p: PpuModel.Ppu, b: Background, mem: Memory)
    requires p.Valid() && p.regs.Rendering()
    ensures Drawn(p.time) ==> UnitsPrepared(p, mem) == p.sprites && !SpriteWindow(p.time.dot)
    ensures Pixel(p, mem) == Shown(p.bg, p.sprites, p.regs, mem)
  {
    hide Color, PixelAddress, BackgroundPixel, FrontSprite;
  }

  lemma NothingMoved(u: SpriteUnit, t: Timing)
    requires !FetchWindow(t.dot)
    ensures UnitsMoved(u, t) == u
  {
  }

  lemma FetchShowsSame(b: Background, phase: nat, u: SpriteUnit, regs: Registers, mem: Memory)
    requires regs.fineX < 8
    ensures Shown(DotFetch(b, phase, regs.ctrl), u, regs, mem) == Shown(b, u, regs, mem)
  {
    hide FetchAddress, PaletteBits, Color, PixelAddress, FrontSprite;
  }

  lemma SameFifo(fifos: seq<SpriteFifo>, i: nat)
    requires i < |fifos|
    ensures fifos[i := fifos[i]] == fifos
  {
  }

  lemma {:induction false} FrontGrows(fifos: seq<SpriteFifo>, s: SpriteFifo)
    ensures FrontSprite(fifos + [s])
         == if FrontSprite(fifos).pattern != 0 then FrontSprite(fifos)
            else if UnitPattern(s) != 0 then SpritePixel(UnitPattern(s), s.attribute) else SpritePixel(0, 0)
    ensures FrontSprite(fifos).pattern == 0 ==> FrontSprite(fifos) == SpritePixel(0, 0)
    decreases |fifos|
  {
    hide UnitPattern;
    if fifos != [] {
      FrontGrows(fifos[1..], s);
      assert (fifos + [s])[1..] == fifos[1..] + [s];
    } else {
      assert ([] + [s])[1..] == [];
    }
  }

  lemma {:induction false} FrontPattern(fifos: seq<SpriteFifo>)
    ensures FrontSprite(fifos).pattern & 0xFC == 0
    decreases |fifos|
  {
    if fifos != [] {
      FrontPattern(fifos[1..]);
    }
  }

  /** An opaque sprite never has the colour of a transparent one. */
  lemma SpriteColors(s: SpritePixel)
    requires s.pattern & 0xFC == 0
    ensures SpriteColor(s) == 0x3F10 <==> s.pattern == 0
  {
  }

  lemma FetchingDot(e: Evaluator, dot: nat, line: byte, height: byte, preRender: bool)
    requires e.Valid() && SpriteWindow(dot)
    ensures var s := SlotIndex(e, dot);
      EvaluatorDot(e, dot, line, height, preRender)
      == e.(clearing := false, oamAddr := 0, oamIndex := 0, spriteY := if Phase(dot) == 0 then e.soam[s % 32] else e.spriteY,
            soamIndex := if Phase(dot) == 7 then (s + 4) % 256 else s)
      && s < 256
  {
  }

  /** Clearing sets its two switches itself. */
  lemma ClearAgain(e: Evaluator, dot: nat)
    requires e.Valid() && 1 <= dot <= 64
    ensures ClearDot(e.(disabled := false, clearing := true), dot) == ClearDot(e, dot)
  {
    assert e.(disabled := false, clearing := true).(disabled := false, clearing := true) == e.(disabled := false, clearing := true);
  }
}
