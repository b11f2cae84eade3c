/** The master clock: one counter per device divides it into PPU dots, CPU cycles and APU clocks. */
module NesClock {
  import opened PpuTiming

  const CPU_DIVIDER := 12
  const PPU_DIVIDER := 4
  const APU_DIVIDER := 2
  const MASTER_CYCLES_PER_FRAME := 357366
  const NO_LIMIT := 0xFFFF_FFFF_FFFF_FFFF

  /** What a master cycle completed. */
  datatype ExecutionResult = ExecutionResult(lastCycleReached: bool, cpuCycleCompleted: bool, ppuCycleCompleted: bool,
                                             apuClocked: bool, frameDone: bool)

  /** How many dots are left in the frame, this one included, if rendering is so at the dot that may be skipped over. */
  function DotsLeft(t: Timing, rendering: bool): (n: nat)
    requires t.Valid()
    ensures 0 < n <= FRAME_DOTS
  {
    var e := Entered(t);
    if !e.evenFrame && rendering && e.Position() <= FRAME_DOTS - 2 then FRAME_DOTS - 1 - e.Position()
    else FRAME_DOTS - e.Position()
  }

  lemma DotTaken(t: Timing, rendering: bool)
    requires t.Valid()
    ensures var n, at := Tick(t, rendering), Entered(t).Position();
      && n.Valid() && at < FRAME_DOTS
      && (FrameDone(t, rendering) <==> at == FRAME_DOTS - 1 || (at == FRAME_DOTS - 2 && !Entered(t).evenFrame && rendering))
      && (FrameDone(t, rendering) ==> n.FrameStart() && n.evenFrame == Entered(t).evenFrame)
      && (!FrameDone(t, rendering) ==> Entered(n).Position() == at + 1 && Entered(n).evenFrame == Entered(t).evenFrame)
  {
  }

  lemma TickValid(t: Timing, rendering: bool)
    requires t.Valid()
    ensures Tick(t, rendering).Valid()
  {
  }

  /** Two rendered frames in a row take twice the master cycles of the average frame, whichever comes first. */
  lemma TwoRenderedFrames(t: Timing)
    requires t.FrameStart()
    ensures PPU_DIVIDER * (DotsLeft(t, true) + DotsLeft(t.(evenFrame := !t.evenFrame), true)) == 2 * MASTER_CYCLES_PER_FRAME
    ensures PPU_DIVIDER * DotsLeft(t, false) == MASTER_CYCLES_PER_FRAME + 2
  {
  }

  // --- the dividers in closed form, after `n` master cycles

  function PpuPhase(n: nat): nat { PPU_DIVIDER - n % PPU_DIVIDER }
  function PpuDots(n: nat): nat { n / PPU_DIVIDER }
  function CpuPhase(n: nat): nat { CPU_DIVIDER - n % CPU_DIVIDER }
  function CpuCycles(n: nat, alignment: nat): nat { (n + alignment) / CPU_DIVIDER }
  function ApuPhase(cycles: nat): nat { APU_DIVIDER - cycles % APU_DIVIDER }
  function ApuClocks(cycles: nat): nat { (cycles + 1) / APU_DIVIDER }

  lemma NextDot(n: nat)
    ensures PpuPhase(n + 1) == if PpuPhase(n) == 1 then PPU_DIVIDER else PpuPhase(n) - 1
    ensures PpuDots(n + 1) == PpuDots(n) + if PpuPhase(n) == 1 then 1 else 0
    ensures (n + 1) % PPU_DIVIDER == 0 <==> PpuPhase(n) == 1
    ensures 1 <= PpuPhase(n) <= PPU_DIVIDER
  {
  }

  lemma NextCycle(n: nat, alignment: nat)
    requires alignment <= 3
    ensures CpuPhase(n + 1) == if CpuPhase(n) == 1 then CPU_DIVIDER else CpuPhase(n) - 1
    ensures CpuCycles(n + 1, alignment) == CpuCycles(n, alignment) + if CpuPhase(n) == alignment + 1 then 1 else 0
    ensures (n + 1 + alignment) % CPU_DIVIDER == 0 <==> CpuPhase(n) == alignment + 1
    ensures 1 <= CpuPhase(n) <= CPU_DIVIDER
  {
    var q, r := n / 12, n % 12;
    assert n == 12 * q + r && 0 <= r < 12;
    assert (n + 1) % 12 == if r == 11 then 0 else r + 1;
    assert (n + alignment) / 12 == q + if r + alignment < 12 then 0 else 1;
    assert (n + 1 + alignment) / 12 == q + if r + 1 + alignment < 12 then 0 else 1;
  }

  /** The CPU and the PPU counter stay in step, so a CPU counter that runs out never waits for the PPU. */
  lemma Congruent(n: nat)
    ensures CpuPhase(n) % PPU_DIVIDER == PpuPhase(n) % PPU_DIVIDER
    ensures CpuPhase(n) == 1 ==> PpuPhase(n) == 1
  {
    var q, r := n / 12, n % 12;
    assert n == 4 * (3 * q) + r;
    assert n % 4 == r % 4;
  }

  lemma NextClock(cycles: nat)
    ensures ApuPhase(cycles + 1) == if ApuPhase(cycles) == 1 then APU_DIVIDER else 1
    ensures ApuClocks(cycles + 1) == ApuClocks(cycles) + if ApuPhase(cycles) == APU_DIVIDER then 1 else 0
    ensures 1 <= ApuPhase(cycles) <= APU_DIVIDER
  {
  }

  // --- the rendering switch

  /** The switch after master cycle `n`; `mask(k)` is how the CPU leaves it if it is stepped in master cycle `k`. */
  function Switch(mask: nat -> bool, rendering: bool, from: nat, n: nat, alignment: nat): bool {
    if n <= from then rendering
    else if (n + alignment) % CPU_DIVIDER == 0 then mask(n)
    else Switch(mask, rendering, from, n - 1, alignment)
  }

  lemma {:induction false} SwitchOn(mask: nat -> bool, rendering: bool, from: nat, mid: nat, n: nat, alignment: nat)
    requires from <= mid <= n
    ensures Switch(mask, Switch(mask, rendering, from, mid, alignment), mid, n, alignment)
         == Switch(mask, rendering, from, n, alignment)
    decreases n
  {
    if mid < n {
      SwitchOn(mask, rendering, from, mid, n - 1, alignment);
    }
  }

  /** The master cycle of the dot that an odd frame skips over, where `due` is that of the next dot. */
  function SkipCycle(t: Timing, due: nat): nat
    requires t.Valid() && due > 0
  {
    var at := Entered(t).Position();
    if at <= FRAME_DOTS - 2 then due + PPU_DIVIDER * (FRAME_DOTS - 2 - at) else due
  }

  class Nes {
    const alignment: nat
    var totalCycles: nat
    var cpuCycleCounter: nat
    var ppuCycleCounter: nat
    var apuCounter: nat
    var ppu: Timing
    var rendering: bool

    /** Master cycles since power-on, and how often each device was stepped. */
    ghost var elapsed: nat
    ghost var ppuSteps: nat
    ghost var cpuSteps: nat
    ghost var apuClocks: nat

    /** The counters say how far each device is from its next step. */
    ghost predicate Valid()
      reads this
    {
      && alignment <= 3
      && totalCycles == 4 + elapsed
      && ppuCycleCounter == PpuPhase(elapsed) && ppuSteps == PpuDots(elapsed)
      && cpuCycleCounter == CpuPhase(elapsed) && cpuSteps == CpuCycles(elapsed, alignment)
      && apuCounter == ApuPhase(cpuSteps) && apuClocks == ApuClocks(cpuSteps)
      && ppu.Valid()
    }

    constructor (alignment: nat)
      requires alignment <= 3
      ensures Valid() && this.alignment == alignment && elapsed == 0 && ppu == POWER_ON && !rendering
    {
      this.alignment := alignment;
      totalCycles := 4;
      cpuCycleCounter := CPU_DIVIDER;
      apuCounter := APU_DIVIDER;
      ppuCycleCounter := PPU_DIVIDER;
      ppu := POWER_ON;
      rendering := false;
      elapsed, ppuSteps, cpuSteps, apuClocks := 0, 0, 0, 0;
    }

    /**
     One master cycle, in which the CPU leaves the rendering switch at `mask` if it is stepped.  Hitting the cycle limit `lastCycle` when a device is due loses its step: the
     dividers are as they should be afterwards if and only if that does not happen.
     */
    method StepFast(lastCycle: nat, mask: bool) returns (res: ExecutionResult)
      requires Valid()
      modifies this
      ensures elapsed == old(elapsed) + 1 && totalCycles == old(totalCycles) + 1
      ensures rendering == if res.cpuCycleCompleted then mask else old(rendering)
      ensures res.lastCycleReached <==>
                totalCycles > lastCycle && (elapsed % PPU_DIVIDER == 0 || (elapsed + alignment) % CPU_DIVIDER == 0)
      ensures Valid() <==> !res.lastCycleReached
      ensures res.lastCycleReached ==>
                !res.cpuCycleCompleted && ppu == old(ppu) && ppuSteps == old(ppuSteps) && cpuSteps == old(cpuSteps)
      ensures !res.lastCycleReached ==>
                && (res.ppuCycleCompleted <==> elapsed % PPU_DIVIDER == 0)
                && (res.cpuCycleCompleted <==> (elapsed + alignment) % CPU_DIVIDER == 0)
                && (res.apuClocked <==> res.cpuCycleCompleted && ApuPhase(old(cpuSteps)) == APU_DIVIDER)
                && ppu == (if res.ppuCycleCompleted then Tick(old(ppu), old(rendering)) else old(ppu))
                && (res.frameDone <==> res.ppuCycleCompleted && FrameDone(old(ppu), old(rendering)))
    {
      hide PpuPhase, PpuDots, CpuPhase, CpuCycles, ApuPhase, ApuClocks, Tick, FrameDone;
      NextDot(elapsed);
      NextCycle(elapsed, alignment);
      Congruent(elapsed);
      res := ExecutionResult(false, false, false, false, false);
      totalCycles := totalCycles + 1;
      cpuCycleCounter := cpuCycleCounter - 1;
      ppuCycleCounter := ppuCycleCounter - 1;
      elapsed := elapsed + 1;
      var cpuStep := cpuCycleCounter == alignment;
      if ppuCycleCounter != 0 && !cpuStep {
        return;
      }
      if cpuCycleCounter == 0 {
        cpuCycleCounter := CPU_DIVIDER;
      }
      if totalCycles > lastCycle {
        res := res.(lastCycleReached := true);
        return;
      }
      var frameDone, apuClocked := false, false;
      var ppuStep := ppuCycleCounter == 0;
      if ppuStep {
        frameDone := StepPpu();
        ppuCycleCounter := PPU_DIVIDER;
      }
      if cpuStep {
        apuClocked := StepCpu(mask);
      }
      res := ExecutionResult(false, cpuStep, ppuStep, apuClocked, frameDone);
    }

    /** One dot of the PPU. */
    method StepPpu() returns (frameDone: bool)
      requires ppu.Valid()
      modifies `ppu, `ppuSteps
      ensures ppu == Tick(old(ppu), rendering) && ppu.Valid() && ppuSteps == old(ppuSteps) + 1
      ensures frameDone <==> FrameDone(old(ppu), rendering)
    {
      TickValid(ppu, rendering);
      frameDone := FrameDone(ppu, rendering);
      ppu := Tick(ppu, rendering);
      ppuSteps := ppuSteps + 1;
    }

    /** One cycle of the CPU, which leaves the switch at `mask`; every other one clocks the APU. */
    method StepCpu(mask: bool) returns (apuClocked: bool)
      requires apuCounter == ApuPhase(cpuSteps) && apuClocks == ApuClocks(cpuSteps)
      modifies `apuCounter, `apuClocks, `cpuSteps, `rendering
      ensures rendering == mask
      ensures cpuSteps == old(cpuSteps) + 1 && apuCounter == ApuPhase(cpuSteps) && apuClocks == ApuClocks(cpuSteps)
      ensures apuClocked <==> ApuPhase(old(cpuSteps)) == APU_DIVIDER
    {
      hide ApuPhase, ApuClocks;
      NextClock(cpuSteps);
      apuClocked := apuCounter == APU_DIVIDER;
      if apuClocked {
        apuClocks := apuClocks + 1;
      }
      apuCounter := apuCounter - 1;
      if apuCounter == 0 {
        apuCounter := APU_DIVIDER;
      }
      cpuSteps := cpuSteps + 1;
      rendering := mask;
    }

    /** The switch at the dot that an odd frame skips over when rendering is on. */
    ghost function RenderingAtSkip(mask: nat -> bool): bool
      reads this
      requires ppu.Valid() && ppuCycleCounter > 0
    {
      Switch(mask, rendering, elapsed, SkipCycle(ppu, elapsed + ppuCycleCounter) - 1, alignment)
    }

    /** The master cycles to the end of the current frame. */
    ghost function CyclesLeft(mask: nat -> bool): nat
      reads this
      requires ppu.Valid() && ppuCycleCounter > 0
    {
      ppuCycleCounter + PPU_DIVIDER * (DotsLeft(ppu, RenderingAtSkip(mask)) - 1)
    }

    /**
     Runs without a cycle limit until the PPU finishes a frame, whatever the CPU does to the rendering switch
     meanwhile: only how it stands at one dot counts.  The last master cycle must still be counted in 64 bits.
     */
    method StepFrame(mask: nat -> bool)
      requires Valid() && totalCycles + CyclesLeft(mask) <= NO_LIMIT
      modifies this
      ensures Valid() && totalCycles - elapsed == old(totalCycles - elapsed)
      ensures rendering == Switch(mask, old(rendering), old(elapsed), elapsed, alignment)
      ensures ppu.FrameStart() && ppuCycleCounter == PPU_DIVIDER && ppu.evenFrame == Entered(old(ppu)).evenFrame
      ensures elapsed == old(elapsed) + old(CyclesLeft(mask))
    {
      hide PpuDots, CpuPhase, CpuCycles, ApuPhase, ApuClocks, Tick, FrameDone, PpuPhase, Switch, Entered, Timing.Position,
        Timing.FrameStart;
      ghost var first := Entered(ppu).Position();
      ghost var parity := Entered(ppu).evenFrame;
      ghost var due := elapsed + ppuCycleCounter;
      DotTaken(ppu, rendering);
      NextDot(elapsed);
      SwitchStarts(mask, rendering, elapsed, alignment);
      var done := false;
      while !done
        invariant Valid() && totalCycles - elapsed == old(totalCycles - elapsed)
        invariant rendering == Switch(mask, old(rendering), old(elapsed), elapsed, alignment)
        invariant !done ==> first <= Entered(ppu).Position() < FRAME_DOTS && Entered(ppu).evenFrame == parity
                            && elapsed + ppuCycleCounter == due + PPU_DIVIDER * (Entered(ppu).Position() - first)
                            && elapsed < old(elapsed) + old(CyclesLeft(mask))
        invariant done ==> ppu.FrameStart() && ppu.evenFrame == parity && ppuCycleCounter == PPU_DIVIDER
                           && elapsed == old(elapsed) + old(CyclesLeft(mask))
        decreases if done then 0 else 1 + PPU_DIVIDER * (FRAME_DOTS - Entered(ppu).Position()) + ppuCycleCounter
      {
        DotTaken(ppu, rendering);
        NextDot(elapsed);
        SwitchStep(mask, old(rendering), old(elapsed), elapsed, alignment);
        var res := StepFast(NO_LIMIT, mask(totalCycles - 3));
        if res.frameDone {
          done := true;
        }
      }
    }

    /**
     Two frames from a frame boundary.  They take twice the cycles of the average frame exactly if rendering is on
     at one dot, the one that the odd frame of the two skips over, and four cycles more otherwise.
     */
    method StepTwoFrames(mask: nat -> bool)
      requires Valid() && ppu.FrameStart() && ppuCycleCounter == PPU_DIVIDER
      requires totalCycles + 2 * MASTER_CYCLES_PER_FRAME + PPU_DIVIDER <= NO_LIMIT
      modifies this
      ensures Valid() && ppu.FrameStart() && ppuCycleCounter == PPU_DIVIDER && ppu.evenFrame == old(ppu.evenFrame)
      ensures var odd := old(elapsed) + if old(ppu.evenFrame) then 0 else PPU_DIVIDER * FRAME_DOTS;
        var shown := Switch(mask, old(rendering), old(elapsed), odd + PPU_DIVIDER * (FRAME_DOTS - 1) - 1, alignment);
        && elapsed == old(elapsed) + 2 * MASTER_CYCLES_PER_FRAME + (if shown then 0 else PPU_DIVIDER)
        && ppuSteps == old(ppuSteps) + 2 * FRAME_DOTS - (if shown then 1 else 0)
    {
      hide Switch;
      StepFrame(mask);
      SwitchOn(mask, old(rendering), old(elapsed), elapsed, elapsed + PPU_DIVIDER * (FRAME_DOTS - 1) - 1, alignment);
      StepFrame(mask);
    }
  }

  lemma SwitchStarts(mask: nat -> bool, rendering: bool, from: nat, alignment: nat)
    ensures Switch(mask, rendering, from, from, alignment) == rendering
  {
  }

  lemma SwitchStep(mask: nat -> bool, rendering: bool, from: nat, n: nat, alignment: nat)
    requires from <= n
    ensures Switch(mask, rendering, from, n + 1, alignment)
         == if (n + 1 + alignment) % CPU_DIVIDER == 0 then mask(n + 1) else Switch(mask, rendering, from, n, alignment)
  {
  }
}
