# Verified model of the emulation core

The emulation core in `core/src/emulation` is a set of state machines that advance one cycle at a time:
a 6502 CPU that runs instructions as queues of micro-operations, a PPU that draws one dot at a time, an
APU frame counter, buses that decay and mirror, a serial bank register, and one master clock that drives
them. This project models these machines and proves what their cycles add up to.

Every module has one file of the same name.

## How it is built

Each machine is given twice where the emulator changes fields in place: as a function on values that says
what one cycle does, and as a class whose methods assign the fields, proved equal to that function
(`PpuObject.Ppu.Step`, `CpuObject.Cpu.Step`, and the classes of the smaller machines). The theorems about
lines, frames, instructions and runs are about the functions, and so hold of the classes.

- **Picture.** `PpuModel.Step` is a dot. `PpuFrame` follows the background through lines and frames,
  `PpuSprites` the evaluation of one line, `PpuSlots` and `PpuUnits` the way from secondary object memory
  into the eight sprite units and out of them again. `PpuPicture.FrameShown` puts both together: every
  pixel of a rendered frame is the one that registers, object memory and the bus define.
- **Instructions.** `CpuMachine.Cycle` is a CPU cycle, `CpuExec` the micro-operations, `Opcodes` the opcode
  table and the program of each addressing mode. `InstructionSet` says what each instruction does in one
  step, without micro-operations. `CpuInstructions.ProgramAmountsExactly` proves which programs of stable opcodes
  amount to that step; `CpuCorrectness.InstructionRefined` proves it of the running machine, with
  interrupts and DMA around it. `CpuRuns` has the invariants of all runs from power-on, `CpuReturns` and
  `CpuBreak` the round trips through the stack, `OamDma` and `OamTransfer` the page copy from the fetch of its
  store, `CpuDmaClash` the instruction that a DMA breaks in two, `CpuApu` what the frame counter hears of a run,
  and `CpuArithmetic` arithmetic on numbers of any length.
- **Smaller machines.** `NesClock`, `ApuFrameCounter`, `OpenBusModel`, `Mmc1Model`, `PpuBusModel` with
  `Nametables`, and `ObjectMemory`.

Data bytes and addresses are bit-vectors, so masks, shifts and wrap-around are those of the emulator;
indices are integers with their wrap written out. A bus is a parameter: for the CPU a function from the
accesses made so far to the next answer (`Device`), which covers memory, registers with side effects and
open bus alike; for the PPU a function from address to byte (`Memory`), the same for the dots of one
theorem. Interrupt lines are inputs of each cycle. The log of bus accesses is part of the CPU's state, so
that theorems speak of the order of reads and writes.

## Where the code is not what one would expect

- A sprite in column 0 is drawn nowhere (`PpuPicture.NeverDrawnAtZero`): its unit counts from 0 and never
  reaches the end of counting. It also takes sixteen columns off the sprites loaded into that unit on the
  lines below, until one of them is further right (`PpuPicture.LagsWhereBlocked`, `PpuPicture.OwnColumn`), so
  that a sprite in column 5 right below one in column 0 vanishes (`PpuPicture.LowerSpriteVanishes`).
  Without a sprite in column 0 all is regular (`PpuPicture.NoneLags`).
- `nes.rs:524-527` returns before a due step and before its divider is reloaded; the divider invariant
  survives a master cycle if and only if the limit is not hit at a due step (`NesClock.Nes.StepFast`).
- `nes.rs:28` counts half of two frames with rendering on at one dot of the odd one (`NesClock.Nes.StepTwoFrames`);
  a frame without rendering is two master cycles longer (`NesClock.TwoRenderedFrames`).
- `mmc1.rs:86-88` clears the shift register but not its count, so the next register gets zeros in its low bits
  (`Mmc1Model.ResetFinishes`), and five writes load what they mean to exactly if no bit was waiting
  (`Mmc1Model.ResetMeansFresh`); `mmc1.rs:364` is one bank off in mode 2 (`Mmc1Model.Mmc1.Mode2OffByOne`), and
  `mmc1.rs:371` fixes bank 7, the last bank exactly for sizes that divide 128 KiB
  (`Mmc1Model.Mmc1.Mode3LastBank`).
- `board.rs:261-262` reads the palette with an unreduced address on a grayscale write
  (`PpuBusModel.GrayscaleWrite`).
- Four-screen mirroring addresses a memory of half its size, which makes it another layout
  (`PpuBusModel.FourScreenFolds`).
- The frame counter by itself accepts writes to $4017 on any clock. A caller that keeps writing within three
  clocks of the last write keeps the reset pending and drives the counters past the end of the sequence, by
  exactly the clocks it does so, up to their width (`ApuFrameCounter.CounterReach`,
  `ApuFrameCounter.NothingOverflows`). A CPU does not, in any run: its stores are further apart, and the two writes
  of a read-modify-write, one clock apart, are harmless (`CpuApu.FrameCounterStays`).
- A read-modify-write on $4014 starts its DMA between its two writes. It is exactly where an instruction is
  not completed in its cycles (`CpuCorrectness.InstructionRefined`); its second write then stores the last
  byte of the page, and a second transfer follows (`CpuDmaClash.DmaClobbers`).
- An interrupt that arrives while BRK runs can take over its vector, as `cpu.rs:1419-1437` sets the
  candidate vector (`CpuBreak.TakenOver`). An NMI that does so stays pending: its handler is entered twice for one
  edge, and the second time returns to its own first instruction (`CpuBreak.TakenTwice`).

## Model

| member | source | states |
|---|---|---|
| PpuPicture.FrameShown | core/src/emulation/ppu.rs:150-391 | for every state at the start of a rendered pre-render line, every line s < 240 and column x < 256: after exactly 336 + (4 or 5) + 341 s + 1 + x dots the PPU is at that pixel and writes the colour that the registers, object memory and the bus define: the first opaque one of the first eight sprites covering line s - 1, over or under the scrolled background by its priority bit; line 0 shows no sprite |
| PpuPicture.SpritesShown | core/src/emulation/ppu.rs:167-305 | at column x of line s the front unit is the front sprite of the declarative picture of line s - 1, and no sprite at all on line 0 |
| PpuPicture.LineLoads | core/src/emulation/ppu.rs:167-305 | one rendered visible line takes its chosen sprites into the units of the next line, 341 dots later, with object memory unchanged and the lagging units known again |
| PpuPicture.FirstLine | core/src/emulation/ppu.rs:176-206 | the pre-render line leads to a line 0 whose eight units are blank and will finish counting |
| PpuPicture.SlotHolds | core/src/emulation/ppu.rs:492-567 | behind evaluation, slot i holds the four bytes of the i-th chosen sprite, which covers the line, or a sprite that does not cover it and sits in the last column |
| PpuPicture.UnitDraws | core/src/emulation/ppu.rs:229-257 | a unit loaded with a sprite puts out at column x exactly that sprite's pixel there, 0 elsewhere |
| PpuPicture.NeverDrawnAtZero | core/src/emulation/ppu.rs:295-303 | a sprite in column 0 is drawn nowhere: two rendered frames whose object memories differ only in tiles and attributes of sprites in column 0 draw the same colour in every cell |
| PpuPicture.LagsWhereBlocked | core/src/emulation/ppu.rs:295-303 | a unit still counts when it is loaded behind line l if and only if on some earlier line its sprite was in column 0 and on every line since then in the first sixteen columns, read off object memory |
| PpuPicture.LowerSpriteVanishes | core/src/emulation/ppu.rs:295-303 | with one sprite in column 0 and another right below it in the first sixteen columns, every cell of the lower sprite's eight lines draws the background alone |
| PpuPicture.ExampleStacked | core/src/emulation/ppu.rs:295-303 | such an object memory: the lower sprite is in column 5 |
| PpuPicture.OwnColumn | core/src/emulation/ppu.rs:295-303 | a sprite starts from its own column if and only if that is not 0 and its unit is not blocked by a sprite in column 0 followed only by sprites in the first sixteen columns; from a blocked unit it starts sixteen columns to the left, or not at all |
| PpuPicture.NoneLags | core/src/emulation/ppu.rs:295-303 | if no sprite in object memory is in column 0, every chosen sprite of every line starts from its own column |
| PpuPicture.RowOfSprite | core/src/emulation/ppu.rs:422-428 | for a covering sprite the row fetched is line - y, counted from the bottom if the sprite is flipped, and lies inside its height |
| PpuPicture.SourceOfSprite | core/src/emulation/ppu.rs:411-439 | for a covering sprite the pattern address is that of its row in its tile: eight rows from the table the control register selects, sixteen from a pair of tiles of the table its own bit 0 selects, the upper tile first |
| PpuPicture.SelectedWhole | core/src/emulation/ppu.rs:499-553 | the chosen bytes are whole sprites, each of which covers the line |
| PpuUnits.UnitShows | core/src/emulation/ppu.rs:229-257 | a unit that starts a line counting from column x shows its row at columns x to x + 7 and nothing elsewhere; from column 0 it shows nothing |
| PpuUnits.StuckAtZero | core/src/emulation/ppu.rs:295-303 | after a line a unit still counts if and only if it started from column 0 |
| PpuUnits.Prepared | core/src/emulation/ppu.rs:295-303 | a unit that still counts at dot 321 has lost sixteen columns, not below 0, when the line starts; any other keeps its column; rows and attribute are kept |
| PpuUnits.TopAfter | core/src/emulation/ppu.rs:231-237 | k shifts put out bit k of a pattern row, and nothing after its eight bits |
| PpuUnits.MirroredRow | core/src/emulation/ppu.rs:442-448 | a mirrored row has its bits in the opposite order |
| PpuSlots.UnitsReady | core/src/emulation/ppu.rs:195-216 | from dot 257 of a rendered line to the start of the next, over 83 or 84 dots, every unit is loaded from its slot of secondary object memory and starts counting; object memory is untouched |
| PpuSlots.FillSlots | core/src/emulation/ppu.rs:398-485 | dots 257 to 320 load the units in order, each from its own slot and leaving the others alone |
| PpuSlots.EvaluatorSteps | core/src/emulation/ppu.rs:167-206 | along a rendered line the evaluator of the whole PPU is the evaluator run by itself |
| PpuSlots.LineUnits | core/src/emulation/ppu.rs:221-303 | after x columns of a line each of the eight units has been shifted and counted x times |
| PpuSprites.EvaluationSelectsFirstEight | core/src/emulation/ppu.rs:167-193 | after dots 0 to 256 of a visible line, for any object memory: secondary memory starts with all bytes, in order, of the first eight sprites covering the line; the next slot begins with no sprite of the line, and everything past that byte is $FF; object memory is unchanged |
| PpuSprites.PreRenderClears | core/src/emulation/ppu.rs:499-567 | after evaluation on the pre-render line every byte of secondary memory is $FF |
| PpuSprites.InRangeMeans | core/src/emulation/ppu.rs:492-496 | the wrapping byte comparison means y <= line < y + height on every visible line |
| PpuFrame.FramePicture | core/src/emulation/ppu.rs:570-653 | for every column of every line of a rendered frame the background pixel is the nametable, attribute and pattern lookup at the scrolled position |
| PpuFrame.ScrollOfLine | core/src/emulation/ppu.rs:305-327 | at the first dot of line s the scroll position is the one of t, moved s rows down and two tiles right |
| PpuFrame.LineShowsPicture | core/src/emulation/ppu.rs:218-222 | on a line whose first two tiles are in the shifters, the pixel at dot x + 1 is the picture at column x, for all 256 columns |
| PpuFrame.ToNextLine | core/src/emulation/ppu.rs:305-327 | from dot 257 to the first dot of the next line the horizontal (on the pre-render line also the vertical) bits are reloaded and two tiles are prefetched |
| PpuFrame.LineEnds | core/src/emulation/ppu.rs:305-314 | after its 256 columns a line leaves the scroll position 34 tiles right and one row down |
| PpuBackground.SlotShowsPicture | core/src/emulation/ppu.rs:580-598 | the shifters, k dots into tile slot t, put out the pixel of the tile picture at 8 t + k + fine x |
| PpuBackground.SlotLoads | core/src/emulation/ppu.rs:601-653 | eight fetch dots load the tile at v into the low halves of the shifters and step v by one tile, and at dot 256 one row |
| PpuBackground.AddressBits | core/src/emulation/ppu.rs:601-653 | the masked and shifted fetch addresses are nametable and attribute addresses in coordinates |
| PpuScroll.RightNext | core/src/emulation/ppu.rs:879-886 | the horizontal increment is one step on a ring of 64 tile columns across two nametables |
| PpuScroll.DisjointSteps | core/src/emulation/ppu.rs:879-906 | horizontal and vertical increments change disjoint bits |
| PpuScroll.LineStep | core/src/emulation/ppu.rs:305-327 | any number of tile steps, a vertical step and the horizontal reload amount to one vertical step |
| PpuScroll.NextRow | core/src/emulation/ppu.rs:889-906 | from the thirty tile rows a vertical step is one step on a ring of 480 rows |
| PpuScroll.VerticalPeriod | core/src/emulation/ppu.rs:889-906 | from the thirty tile rows, 480 vertical steps restore the scroll position |
| PpuTiming.FrameArithmetic | core/src/emulation/ppu.rs:350-391 | in every reachable state, whatever the rendering switch did: dot <= 340, scanline <= 261, and the dot counter is 89342 frames + 341 scanline + dot |
| PpuTiming.WholeFrame | core/src/emulation/ppu.rs:161-165 | a frame takes 89342 dots, one less exactly if it is odd and rendering is on at dot 339 of the pre-render line; its end flips the parity once |
| PpuPixels.EveryPixelOnce | core/src/emulation/ppu.rs:288-335 | in a run from a frame boundary with arbitrary register changes between dots, each of the 61440 cells is drawn by exactly one dot, keeps that colour, and the colour is below 512 |
| PpuObject.Ppu.constructor | core/src/emulation/ppu.rs:95-144 | a new PPU is well formed and at dot 0 of line 0 |
| PpuObject.Ppu.Step | core/src/emulation/ppu.rs:150-391 | a dot in place keeps the PPU well formed and is the dot on values, which the frame theorems run |
| PpuObject.Ppu.RunDot | core/src/emulation/ppu.rs:167-335 | everything but the counters and the latch: background, evaluator, units and pixel buffer after the dot; registers unchanged |
| PpuObject.Ppu.RenderDot | core/src/emulation/ppu.rs:167-328 | a rendered dot: evaluator, scroll and shifters, units and pixel, each from the state before the dot |
| PpuObject.Ppu.BlankDot | core/src/emulation/ppu.rs:330-335 | outside rendering a visible dot shows the backdrop, and nothing else changes |
| PpuObject.Ppu.MovePixels | core/src/emulation/ppu.rs:218-328 | fetch, draw and move the pipelines, then reload the scroll position |
| PpuObject.Ppu.DrawPixel | core/src/emulation/ppu.rs:222-292 | one cell gets the colour composed of background and front sprite; the units that have counted down are shifted |
| PpuObject.Ppu.ShiftOutSprites | core/src/emulation/ppu.rs:229-257 | the loop over the units shifts each that has counted down, and returns the first opaque pattern |
| PpuObject.Ppu.CountDownSprites | core/src/emulation/ppu.rs:295-303 | the loop counts every counting unit down, and stops it at 0 |
| PpuObject.Ppu.StartCounting | core/src/emulation/ppu.rs:211-215 | the loop sets every unit counting |
| PpuObject.Ppu.RunEvaluator | core/src/emulation/ppu.rs:168-193 | reset, clearing and evaluation of a dot outside the sprite fetches |
| PpuObject.Ppu.InitSoam | core/src/emulation/ppu.rs:559-567 | odd dots read the value that clears, even dots store it |
| PpuObject.Ppu.SpriteEval | core/src/emulation/ppu.rs:499-512 | odd dots fetch, even dots store and judge |
| PpuObject.Ppu.StoreSpriteByte | core/src/emulation/ppu.rs:513-553 | store, judge the range, close when full, move on and stop at the wrap |
| PpuObject.Ppu.FetchSprite | core/src/emulation/ppu.rs:398-485 | one of eight dots loading a unit: indices, address bus and the one unit that changes |
| PpuObject.Ppu.OamAt | core/src/emulation/ppu.rs:915-929 | primary memory through its interleaved cell, $FF while clearing |
| PpuObject.Ppu.SecondaryOamRead | core/src/emulation/ppu.rs:947-954 | the secondary byte at the address modulo 32 |
| PpuObject.Ppu.SecondaryOamWrite | core/src/emulation/ppu.rs:967-978 | one secondary byte changes unless writing is disabled; primary memory never does |
| PpuObject.Ppu.WriteOam | core/src/emulation/ppu.rs:790-804 | a port write stores the masked byte and advances by one, or on a drawn line drops it and advances by four |
| PpuObject.Ppu.DoDotFetch | core/src/emulation/ppu.rs:601-653 | odd dots drive the address bus, even dots take the latched byte, each by its phase |
| PpuObject.Ppu.ShiftBgShifters | core/src/emulation/ppu.rs:570-577 | all four background shifters move one place |
| PpuObject.Ppu.ReloadShifters | core/src/emulation/ppu.rs:1000-1011 | the fetched tile enters the low bytes, its palette bits the attribute inputs |
| PpuObject.Ppu.IncCoarseXScroll | core/src/emulation/ppu.rs:879-886 | one tile right, into the neighbouring nametable after column 31 |
| PpuObject.Ppu.IncYScroll | core/src/emulation/ppu.rs:889-906 | one row down, with the exits at tile rows 29 and 31 |
| PpuObject.Ppu.ReloadScroll | core/src/emulation/ppu.rs:317-327 | horizontal reload at dot 257, vertical reload at dots 280 to 304 of the pre-render line |
| PpuObject.Ppu.AdvanceTime | core/src/emulation/ppu.rs:350-385 | the counters move on by one dot, or two at the skipped dot, and wrap at line and frame ends |
| ObjectMemory.EveryCell | core/src/emulation/ppu.rs:915-978 | every one of the 288 interleaved cells is exactly one primary or one secondary byte |
| ObjectMemory.PrimaryWritten | core/src/emulation/ppu.rs:790-804 | writing a primary cell changes that primary byte alone |
| ObjectMemory.SecondaryWritten | core/src/emulation/ppu.rs:967-978 | writing a secondary cell changes that secondary byte alone |
| ObjectMemory.FillsPage | core/src/emulation/ppu.rs:790-804 | 256 port writes in blanking, from any address a0: byte i ends at (a0 + i) mod 256 with attribute bytes masked, the address is back at a0, secondary memory is untouched |
| OpQueues.OpQueue.constructor | core/src/emulation/cpu.rs:42-49 | a new queue is empty |
| OpQueues.OpQueue.PushBack | core/src/emulation/cpu.rs:52-60 | with room, the operation is appended; contents as a sequence |
| OpQueues.OpQueue.PopFront | core/src/emulation/cpu.rs:63-76 | the first operation is removed and returned, none exactly if the queue is empty |
| OpQueues.OpQueue.PushAll | core/src/emulation/cpu.rs:52-60 | a program that fits is appended in order |
| Opcodes.EveryOpcodeIsAnEntry | core/src/emulation/opcode.rs:26-1112 | each of the 256 table entries combines addressing mode, target and operation in one of the forms the proofs cover |
| CpuSafety.ProgramLoadable | core/src/emulation/cpu.rs:411-1230 | the program of every entry fits behind an empty queue and fetches no opcode inside |
| CpuSafety.ExecBounded | core/src/emulation/cpu.rs:1472-1567 | a micro-operation schedules at most one more, with strictly fewer left to schedule, and keeps status bits 4 and 5 clear |
| CpuSafety.AluKeepsStackBits | core/src/emulation/cpu.rs:1899-1963 | no operation sets status bit 4 or 5 |
| CpuSafety.CycleInv | core/src/emulation/cpu.rs:1364-1468 | every cycle, including DMA, interrupts and halts, keeps the invariant of the machine |
| CpuRuns.QueueNeverOverflows | core/src/emulation/cpu.rs:39-77 | in every state of every run from power-on with arbitrary interrupt lines, resets and bus answers, halted or in DMA too: fewer than eight operations are queued, an opcode fetch finds the queue empty, status bits 4 and 5 are clear; and where an operation runs, pushes happen behind an empty queue only and fit in the eight slots |
| CpuRuns.InstructionsAreShort | core/src/emulation/cpu.rs:1364-1468 | between instruction boundaries fewer than eight micro-operations are executed, so every instruction and interrupt sequence ends within eight |
| CpuRuns.NoNmiInvented | core/src/emulation/cpu.rs:1400-1446 | in every run the NMI sequences started and those still owed never outnumber the rising edges seen |
| CpuRuns.NoNmiLost | core/src/emulation/cpu.rs:1400-1446 | from a rising edge until a sequence starts, the NMI stays detected or pending |
| CpuRuns.FetchOutside | core/src/emulation/cpu.rs:1364-1468 | in every run, with DMA and resets, no interrupt sequence counts as under way when an opcode is about to be fetched |
| InstructionSet.IndexCarry | core/src/util.rs:24-38 | base + index mod 65536 differs from the address with an unfixed high byte exactly when the low byte comes out below the index, and then by one page |
| CpuInstructions.ProgramAmountsExactly | core/src/emulation/cpu.rs:411-1230 | for every stable opcode and every bus: the scheduled micro-operations, run one after another, amount to the atomic instruction, in registers, bus accesses and number of cycles, if and only if it is no read-modify-write of $4014 |
| CpuInstructions.ComesHalfway | core/src/emulation/cpu.rs:771-927 | every read-modify-write, on any operand, comes in all but one of its cycles to its last write, with the old byte written back and the new one in the data latch |
| CpuInstructions.FallsThrough | core/src/emulation/opcode.rs:1126-1155 | every stable instruction that is no jump, call, return or branch leaves the program counter 1 + operand bytes on |
| CpuRefinement.ReadsPlain | core/src/emulation/cpu.rs:1151-1212 | reads without an index carry: effective address, accesses in order, cycles |
| CpuRefinement.ReadsIndexed | core/src/emulation/cpu.rs:1758-1793 | indexed reads: one more cycle, reading again at the fixed address, exactly if the index carries into the high byte |
| CpuRefinement.WritesPlain | core/src/emulation/cpu.rs:867-903 | plain stores: address resolved, one write of the stored byte |
| CpuRefinement.WritesIndexed | core/src/emulation/cpu.rs:741-809 | indexed stores: always one read at the unfixed address, then the write |
| CpuRefinement.ModifiesPlain | core/src/emulation/cpu.rs:834-927 | read-modify-write on any operand, up to its last write: the old byte is written back, the new one waits in the data latch |
| CpuRefinement.WritesNew | core/src/emulation/cpu.rs:834-927 | the last write completes the instruction wherever it asks for no DMA |
| CpuRefinement.ModifiesIndexed | core/src/emulation/cpu.rs:771-809 | the same of the indexed ones, which first read at the unfixed address |
| CpuControl.BranchRefines | core/src/emulation/cpu.rs:1574-1589 | a branch takes 2, 3 or 4 cycles: not taken, taken in the page, taken into another page, with these accesses |
| CpuControl.CallRefines | core/src/emulation/cpu.rs:945-965 | JSR pushes the address of its last byte and jumps, in 6 cycles |
| CpuControl.ReturnRefines | core/src/emulation/cpu.rs:991-1020 | RTS pulls the address and goes on behind it, in 6 cycles |
| CpuControl.ReturnFromInterruptRefines | core/src/emulation/cpu.rs:1022-1042 | RTI pulls status and address, in 6 cycles |
| CpuControl.JumpIndirectRefines | core/src/emulation/cpu.rs:680-701 | the indirect jump fetches its high byte from the same page |
| CpuControl.PushRefines | core/src/emulation/cpu.rs:985-989 | PHA and PHP in 3 cycles; PHP pushes the two stack bits set |
| CpuControl.PullRefines | core/src/emulation/cpu.rs:967-983 | PLA and PLP in 4 cycles; PLP drops the two stack bits |
| CpuCorrectness.InstructionRefined | core/src/emulation/cpu.rs:1364-1468 | from any opcode fetch of a sound machine, for every stable opcode and whatever the interrupt lines do: after the instruction's cycle count the machine has its registers and bus accesses, is at a boundary and nowhere before, and a store to $4014 has requested its DMA, if and only if it is no read-modify-write of $4014 |
| CpuCorrectness.ModifyIsHeldUp | core/src/emulation/cpu.rs:226-230 | of a read-modify-write of $4014: one cycle before its end and at its end the second write is the current micro-operation, a DMA of its first write stands before it, and the machine is at no boundary |
| CpuDmaClash.DmaClobbers | core/src/emulation/cpu.rs:1411-1413 | what it does instead: a whole transfer from the page named by the old byte, then the second write stores the last byte of that page and starts a second transfer, and only then the machine is at a boundary |
| CpuDmaClash.IncrementOfDma | core/src/emulation/opcode.rs:26-1112 | INC $4014 is such an instruction wherever it stands |
| CpuDmaClash.IncrementNotCompleted | core/src/emulation/cpu.rs:226-230 | from power-on, INC $4014 at address 0 is not completed in its six cycles |
| CpuReturns.InterruptEntered | core/src/emulation/cpu.rs:1232-1278 | an NMI or IRQ sequence takes 7 cycles and is the atomic interrupt entry, for every stack pointer |
| CpuReturns.InterruptReturns | core/src/emulation/cpu.rs:1022-1042 | entry, any handler that keeps its frame, then RTI: program counter, stack pointer and status are exactly restored, for every stack pointer including wrap |
| CpuReturns.CallReturns | core/src/emulation/cpu.rs:945-1020 | JSR, any routine that keeps its frame, then RTS: back at JSR + 3 with the stack pointer restored |
| CpuBreak.TakenOver | core/src/emulation/cpu.rs:1419-1437 | BRK goes through the NMI vector if and only if an NMI edge is seen in one of its cycles 1 to 3 and no IRQ level after it up to cycle 3 |
| CpuBreak.NmiBehindBreak | core/src/emulation/cpu.rs:1400-1446 | an NMI sequence starts right behind BRK if and only if one was owed when the BRK was fetched or the line rises in one of its first six cycles, whichever vector BRK went through |
| CpuBreak.TakenTwice | core/src/emulation/cpu.rs:1419-1446 | the NMI edge that takes BRK over is not used up: seven cycles later the handler is at its first instruction, another seven cycles later it is there again, entered through the same vector, with its own first address on the stack |
| CpuBreak.BreakRefined | core/src/emulation/cpu.rs:1044-1083 | BRK takes 7 cycles and is the atomic BRK through the vector that won |
| CpuBreak.BreakReturns | core/src/emulation/cpu.rs:1044-1083 | BRK, any handler that keeps its frame, then RTI: resumes at BRK + 2 with stack pointer and status restored, whichever vector won |
| OamDma.TransfersPage | core/src/emulation/cpu.rs:2048-2126 | a started DMA stalls exactly 513 or 514 cycles by read/write parity, reads page * 256 + i once each in order, writes each byte to $2004, leaves registers, queue and NMI state as they were and the last byte of the page in the data latch |
| OamTransfer.StoreCopiesPage | core/src/emulation/cpu.rs:2048-2126 | from the fetch of any stable store to $4014 in blanking: after the cycles of the store and 513 or 514 more, by the parity at the fetch, the machine is at the next instruction with the registers of the store, and object memory byte a is the byte (a - a0) mod 256 that the stored page had at the fetch, attribute bytes masked; the object address is back at a0, secondary memory is untouched |
| OamTransfer.DmaCopiesPage | core/src/emulation/cpu.rs:2062-2126 | the same of the transfer alone, from the cycle in which the DMA has been requested |
| CpuArithmetic.AddsNumbers | core/src/emulation/cpu.rs:2304-2330 | for any length and carry: the chain of ADC gives result + 256^n carry = x + y + carry in |
| CpuArithmetic.Addition | core/src/emulation/cpu.rs:2304-2330 | with the carry clear the sum is exact, the final carry its overflow digit |
| CpuArithmetic.SubtractsNumbers | core/src/emulation/cpu.rs:2538-2563 | for any length: a chain of SBC adds the complement |
| CpuArithmetic.Subtraction | core/src/emulation/cpu.rs:2538-2563 | with the carry set the difference is modulo 256^n, and the carry is set exactly if nothing was borrowed |
| CpuArithmetic.AdditionOverflow | core/src/emulation/cpu.rs:2304-2330 | after the last ADC, V is set if and only if the two's complement sum is out of range |
| CpuArithmetic.SubtractionOverflow | core/src/emulation/cpu.rs:2538-2563 | after the last SBC, V is set if and only if the two's complement difference is out of range |
| CpuArithmetic.ComparisonOrders | core/src/emulation/cpu.rs:2453-2519 | CMP, CPX and CPY change flags only: carry if and only if the register is at least the operand as numbers, zero if and only if they are equal, sign of the difference |
| CpuArithmetic.ComparisonChain | core/src/emulation/cpu.rs:2453-2563 | CMP of the lowest bytes and SBC on the rest: the carry says for numbers of any length whether the first is at least the second, whatever it was before |
| CpuArithmetic.Doubles | core/src/emulation/cpu.rs:2332-2388 | ASL or ROL of the lowest byte and ROL upwards, in memory or the accumulator: for any length result + 256^n carry out = 2 x + carry in |
| CpuArithmetic.Halves | core/src/emulation/cpu.rs:2332-2388 | LSR or ROR of the highest byte and ROR downwards: for any length 2 result + carry out = x + 256^n carry in |
| CpuArithmetic.ShiftsCancel | core/src/emulation/cpu.rs:2332-2388 | rotating a number of any length up and then down restores its bytes and the carry |
| CpuObject.Cpu.constructor | core/src/emulation/cpu.rs:181-211 | a new CPU satisfies the invariant and is the power-on machine |
| CpuObject.Cpu.Step | core/src/emulation/cpu.rs:1364-1468 | a cycle in place keeps the invariant (so no queue assertion fires) and is the cycle on values, which the run theorems are about |
| CpuObject.Cpu.Reset | core/src/emulation/cpu.rs:1343-1353 | pressing reset schedules the reset sequence as the machine on values does |
| CpuObject.Cpu.StepOp | core/src/emulation/cpu.rs:1398-1462 | a cycle without DMA: poll, execute, start a DMA, sample the lines, take the next operation |
| CpuObject.Cpu.PollInterrupts | core/src/emulation/cpu.rs:1400-1407 | what was detected becomes pending, except in interrupt sequences, taken branches and DMA requests |
| CpuObject.Cpu.SampleLines | core/src/emulation/cpu.rs:1419-1437 | NMI is taken on its rising edge, IRQ by its level, and the later one names the vector |
| CpuObject.Cpu.NextOp | core/src/emulation/cpu.rs:1439-1462 | the next queued operation, else the NMI, else the IRQ sequence, else an opcode fetch |
| CpuObject.Cpu.ProcessOamDma | core/src/emulation/cpu.rs:2062-2126 | the access of one DMA cycle by parity and cycles left |
| CpuObject.Cpu.FetchNextOpcode | core/src/emulation/cpu.rs:1888-1897 | fetches an opcode and schedules its program |
| CpuObject.Cpu.ExecuteMicroOp | core/src/emulation/cpu.rs:1472-1567 | each micro-operation has the effect of its executor on values |
| CpuObject.Cpu.RunOp | core/src/emulation/cpu.rs:1899-1963 | each callback has its effect on registers, queue and interrupt state |
| CpuObject.Cpu.WriteToTarget | core/src/emulation/cpu.rs:1999-2033 | stores into the named register, latch or status |
| CpuObject.Cpu.WriteToBus | core/src/emulation/cpu.rs:1999-2033 | stores to the address a bus target names; a store to $4014 asks for a DMA |
| CpuObject.Cpu.CheckCondition | core/src/emulation/cpu.rs:2035-2046 | the eight branch conditions |
| CpuObject.Cpu.ReadPageCross | core/src/emulation/cpu.rs:1758-1793 | the read that fixes the high byte, and reads again when asked to and crossed |
| CpuObject.Cpu.IncrementBranch | core/src/emulation/cpu.rs:1574-1591 | a branch moves the low byte and schedules the fix exactly if the page changes |
| CpuObject.Cpu.PushStack | core/src/emulation/cpu.rs:1819-1831 | stores at the stack pointer and decrements it, wrapping in page 1 |
| CpuObject.Cpu.PopStack | core/src/emulation/cpu.rs:1807-1817 | increments the stack pointer and loads from it |
| CpuObject.Cpu.ReadZeroPageAdding | core/src/emulation/cpu.rs:1634-1673 | zero page reads wrap in the page; then the sum of two sources is saved |
| CpuObject.Cpu.ReadAbsoluteAdding | core/src/emulation/cpu.rs:1593-1632 | reads with the offset added to the low byte only; then the sum of two sources is saved |
| CpuObject.Cpu.Adc | core/src/emulation/cpu.rs:2304-2330 | result, carry, overflow, zero and sign of an addition with carry |
| CpuObject.Cpu.Sbc | core/src/emulation/cpu.rs:2538-2563 | the same of a subtraction, as the addition of the complement |
| CpuObject.Cpu.Cmp | core/src/emulation/cpu.rs:2453-2473 | carry, zero and sign of a comparison |
| CpuObject.Cpu.Bit | core/src/emulation/cpu.rs:2565-2581 | zero by AND, sign and overflow from memory |
| CpuObject.Cpu.Rla | core/src/emulation/cpu.rs:2722-2729 | rotate in memory, then AND |
| CpuObject.Cpu.Rra | core/src/emulation/cpu.rs:2731-2737 | rotate in memory, then add with the carry that came out |
| CpuObject.Cpu.Isb | core/src/emulation/cpu.rs:2605-2640 | increment in memory, then subtract |
| CpuObject.Cpu.Arr | core/src/emulation/cpu.rs:2670-2690 | AND, rotate, and the flags from bits 6 and 5 |
| CpuObject.Cpu.Sbx | core/src/emulation/cpu.rs:2745-2768 | A AND X minus the operand into X, flags as of a comparison |
| NesClock.Nes.constructor | core/src/emulation/nes.rs:356-372 | a new machine has spent no cycle: counters 4, 12 and 2 |
| NesClock.Nes.StepFast | core/src/emulation/nes.rs:493-564 | one master cycle with any cycle limit: the divider invariant (PPU stepped floor(n/4), CPU floor((n+a)/12) times, counters congruent mod 4 and in range) is kept if and only if the limit is not hit at a due step; then the stepped units, APU clock, frame end and the rendering switch that the CPU leaves are given; the PPU is stepped before the CPU |
| NesClock.Nes.StepFrame | core/src/emulation/nes.rs:285-296 | without a cycle limit the loop ends at the start of the next frame, after the exact number of master cycles left of this one, whatever the CPU does to the rendering switch meanwhile: only how it stands before the dot an odd frame may skip over counts |
| NesClock.Nes.StepTwoFrames | core/src/emulation/nes.rs:285-296 | two frames from a frame boundary take exactly 2 MASTER_CYCLES_PER_FRAME master cycles if rendering is on at that one dot of the odd one, and four more otherwise; they end at a frame boundary of the same parity |
| NesClock.Congruent | core/src/emulation/nes.rs:493-564 | the two dividers stay congruent mod 4, so when the CPU counter runs out the PPU counter does too, and the early return never skips a reload |
| NesClock.TwoRenderedFrames | core/src/emulation/nes.rs:28 | the dots of an even and an odd rendered frame make 2 MASTER_CYCLES_PER_FRAME master cycles, in either order; a frame without rendering takes two cycles more than that constant |
| ApuFrameCounter.FrameCounter.constructor | core/src/emulation/apu.rs:643-650 | a new frame counter is at the start of the four-step sequence |
| ApuFrameCounter.FrameCounter.Clock | core/src/emulation/apu.rs:654-707 | one clock in place is the clock on values, with sixteen-bit counters |
| ApuFrameCounter.FrameCounter.Configure | core/src/emulation/board.rs:662-679 | a $4017 write sets mode, inhibit and the reset three clocks ahead, also over a pending one, and signals a half frame exactly in five-step mode |
| ApuFrameCounter.FrameCounter.GetFrameInterruptForRegister | core/src/emulation/apu.rs:710-714 | reading the flag clears it |
| ApuFrameCounter.ClockAhead | core/src/emulation/apu.rs:654-707 | a pending reset comes one clock nearer with every clock, across a natural wrap too, and is carried out after the third |
| ApuFrameCounter.CountersBounded | core/src/emulation/apu.rs:654-707 | for EVERY sequence of clocks and writes from power-on: a reset is pending exactly within three clocks of a write, and the counters are at most those of the five-step sequence plus the clocks for which one has been pending without a break (half of them for the slow counter) |
| ApuFrameCounter.PostponingReaches | core/src/emulation/apu.rs:654-707 | the bound is reached from power-on: a switch to the four-step sequence in the last step of the five-step one, and a write on every clock, drive the counter to exactly 37281 + n for every n that fits |
| ApuFrameCounter.CounterReach | core/src/emulation/apu.rs:654-707 | the counter stays at or below a limit in all runs that keep no reset pending for more than n clocks if and only if 37281 + n is at most the limit |
| ApuFrameCounter.NothingOverflows | core/src/emulation/apu.rs:695-697 | no 16-bit sum overflows and no difference underflows in a run until a reset has been pending for 28252 clocks without a break |
| ApuFrameCounter.PairedBounded | core/src/emulation/apu.rs:654-707 | if writes come three clocks apart, but one may follow another after a single clock as in a read-modify-write, the counters stay at or below 18642 and 37284 |
| CpuApu.FrameCounterStays | core/src/emulation/nes.rs:536-548 | in every run of the CPU from power-on, for any program, device, interrupt lines, DMA and resets: its stores to $4017 are such writes, with one clock per CPU cycle, so the counters of the frame counter stay at or below 18642 and 37284 |
| CpuApu.ProgramSlow | core/src/emulation/cpu.rs:411-1230 | no program of any of the 256 opcodes stores in the cycle behind its fetch, and only its last two micro-operations store, the first of them only if the second does |
| CpuApu.SilentDiscreet | core/src/emulation/cpu.rs:1470-1900 | every micro-operation other than a write makes one access at most, never a store to $4017, and schedules no write |
| ApuFrameCounter.OneRound | core/src/emulation/apu.rs:652-707 | from the start of a round, one period of clocks ends at the start of a round and gives four quarter-frame clocks, two of them half-frame clocks |
| ApuFrameCounter.ManyRounds | core/src/emulation/apu.rs:652-707 | the same over any number of rounds, with periods 29830 and 37282 |
| OpenBusModel.OpenBus.constructor | core/src/emulation/mem/mod.rs:61-67 | a new open bus has driven nothing |
| OpenBusModel.OpenBus.SetMasked | core/src/emulation/mem/mod.rs:70-80 | the loop restarts the timers of the masked bits; the write joins the history |
| OpenBusModel.OpenBus.Tick | core/src/emulation/mem/mod.rs:83-98 | the loop ages every timer and clears the bits that decay; the ticks join the history |
| OpenBusModel.OpenBus.Read | core/src/emulation/mem/mod.rs:101 | bit i reads 1 if and only if the last write that covered it drove 1 and no more than the decay time has passed since; timers never exceed it |
| Mmc1Model.Mmc1.constructor | core/src/emulation/mapper/mmc1.rs:433-471 | control $0C: mode 3, and the decoded fields agree |
| Mmc1Model.Mmc1.Write | core/src/emulation/mapper/mmc1.rs:74-109 | a write in place is the serial write on values, decoded modes and mirroring follow the control register, and RAM below $8000 gets the byte |
| Mmc1Model.Mmc1.CopyShift | core/src/emulation/mapper/mmc1.rs:398-409 | the register the address selects gets the shifted bits |
| Mmc1Model.EveryFifthWrite | core/src/emulation/mapper/mmc1.rs:74-109 | for any writes without a reset, from any partial collection: exactly every fifth accepted one changes the register its address selects to the five data bits, least significant first; writes on the cycle after another are not accepted |
| Mmc1Model.ResetKeepsCount | core/src/emulation/mapper/mmc1.rs:86-88 | a reset write clears the bits but not their count: for any writes behind it, registers and port are as if the bits that were waiting had been zeros |
| Mmc1Model.ResetFinishes | core/src/emulation/mapper/mmc1.rs:86-88 | with k bits waiting, the (5 - k)-th accepted write behind the reset finishes the register it addresses, with k zeros below its bits |
| Mmc1Model.ResetMeansFresh | core/src/emulation/mapper/mmc1.rs:86-88 | five accepted writes behind a reset load their register with their five bits, whatever the five are, if and only if no bit was waiting at the reset |
| Mmc1Model.ResetKeepsWaiting | core/src/emulation/mapper/mmc1.rs:86-88 | five accepted writes behind a reset leave as many bits waiting as there were before it |
| Mmc1Model.Mmc1.Mode3LastBank | core/src/emulation/mapper/mmc1.rs:346-379 | in mode 3 the whole upper half is the last bank if and only if the PRG size divides 128 KiB |
| Mmc1Model.Mmc1.Mode2OffByOne | core/src/emulation/mapper/mmc1.rs:360-368 | in mode 2 the upper half shows the bank after the selected one, which is the selected one only for a single bank |
| Mmc1Model.Mmc1.LowerHalf | core/src/emulation/mapper/mmc1.rs:346-379 | the lower half is the selected bank in mode 3 and the first in mode 2 |
| PpuBusModel.Nrom.BuildPpuMap | core/src/emulation/mapper/mod.rs:339-357 | the loop fills the table so that all 65536 addresses agree with the plain address match |
| PpuBusModel.PaletteRam.Read | core/src/emulation/mem/palette_ram.rs:24-34 | the byte of the aliased entry |
| PpuBusModel.PaletteRam.Write | core/src/emulation/mem/palette_ram.rs:39-47 | at any address only the entry it is reduced to changes, to six bits; the aliased zero entries are recognised by the unreduced address |
| PpuBusModel.PpuBusView.Read | core/src/emulation/board.rs:193-228 | pattern memory, nametables through the mirroring, palettes with two bits from the open bus, and the low byte of the address where nothing answers; the open bus is left as it is |
| PpuBusModel.PpuBusView.Write | core/src/emulation/board.rs:252-281 | pattern memory gets the byte if it is there and writable, nametable or palette memory gets it, nothing else changes |
| PpuBusModel.WriteReaches | core/src/emulation/board.rs:193-280 | with grayscale off a read in $0000-$3FFF sees a write if and only if both addresses are the same place under the wrap of pattern memory, mirroring and palette aliasing, and that place takes writes, which pattern ROM does not; then what that place keeps of it |
| PpuBusModel.LastWriteWins | core/src/emulation/board.rs:193-280 | after any writes a read in $0000-$3FFF returns the last one that its place took, or what was there before |
| PpuBusModel.FourScreenFolds | core/src/emulation/mapper/nametable_mapping.rs:14-40 | the four-screen layout addresses 4 KiB of a 2 KiB memory, so through the memory's own wrap it is horizontal mirroring |
| PpuBusModel.GrayscaleWrite | core/src/emulation/board.rs:261-262 | a grayscale palette write, which reads at the unreduced address, leaves the low four bits of the entry if and only if the entry is not one of the aliased zero entries or the memory behind that alias holds the same bits |

## Left out

- PPU status register: vertical blank flag, NMI output, sprite zero hit and sprite overflow. The NMI line is an input of the CPU.
- PPU register writes other than the object memory port; the PPU theorems are about spans without them, except `PpuPixels.EveryPixelOnce`, which allows any.
- Sprite pictures on frames where rendering is switched on or off in the middle of a line; `soam_index` is modelled with its wrap at 256.
- `reset_signal` of the PPU, which nothing sets, and the reads of secondary object memory at dots 321 to 340, whose result nothing uses.
- Side effects of PPU bus reads: within one theorem the bus is a fixed function of the address.
- Unstable opcodes (SHA, SHX, SHY, TAS) are part of the machine, its invariants and the class, but not of the atomic instructions, as they depend on configured magic values.
- CpuReturns.InterruptReturns: the handler is any run that keeps its three stack bytes and stack pointer and is followed by RTI; that the stack is plain RAM is a condition on the bus.
- OamTransfer.StoreCopiesPage: requires a page whose bytes the reads, the store to $4014 and the object memory writes of the transfer do not change, and that no line is being drawn.
- DMC DMA: unfinished in the code, its step is empty; the DMC and the other sound units, the sweep, the mixer, resampler and filters.
- The CPU's cycle counter, instruction trace and last memory access; `u64` and `u32` counters are unbounded integers.
- The panic that a build with overflow checks adds to the 16-bit sums of the frame counter: they wrap in the model, and `ApuFrameCounter.NothingOverflows` says up to where they do not, which no run of the CPU leaves (`CpuApu.FrameCounterStays`).
- The length, envelope and linear counters that half and quarter frame signals clock; the signals themselves are returned.
- `run_until` with stop conditions. `NesClock.Nes.StepFrame` requires that the 64-bit cycle counter reaches the end of the frame; the rendering switch is an input of each CPU cycle there.
- Mappers other than NROM and MMC1, MMC1 submappers, CHR banks and CHR writes, PRG RAM banks, ROM headers, save states.
- Controllers, palettes as colours, debug views, configuration, files and everything outside `core/src/emulation`.
