/** The dot and scanline counters of the PPU, with the dot skipped on odd rendered frames. */
module PpuTiming {

  const LAST_DOT := 340
  const PRE_RENDER := 261
  const LAST_VISIBLE := 239
  const FRAME_DOTS := 89342  // 262 lines of 341 dots

  datatype Timing = Timing(dot: nat, scanline: nat, evenFrame: bool, dotCounter: nat)
  {
    predicate Valid() {
      dot <= LAST_DOT && scanline <= PRE_RENDER
    }
    predicate Visible() {
      scanline <= LAST_VISIBLE
    }
    predicate Rendered() {
      Visible() || scanline == PRE_RENDER
    }
    predicate FrameStart() {
      dot == 0 && scanline == 0
    }
    /** The number of dots of the frame that come before this one. */
    function Position(): nat {
      341 * scanline + dot
    }
  }

  /** The frame parity flips on the first dot of a frame. */
  function Entered(t: Timing): Timing {
    t.(evenFrame := if t.FrameStart() then !t.evenFrame else t.evenFrame)
  }

  predicate Skips(t: Timing, rendering: bool) {
    t.dot == LAST_DOT - 1 && t.scanline == PRE_RENDER && !t.evenFrame && rendering
  }

  /** The counters after the dot, without the parity flip at its start. */
  function Advanced(t: Timing, rendering: bool): Timing {
    var n := if Skips(t, rendering) then 2 else 1;
    var dot := t.dot + n;
    if dot <= LAST_DOT then t.(dot := dot, dotCounter := t.dotCounter + n)
    else t.(dot := 0,
            scanline := if t.scanline + 1 > PRE_RENDER then 0 else t.scanline + 1,
            dotCounter := t.dotCounter + n)
  }

  function Tick(t: Timing, rendering: bool): Timing {
    Advanced(Entered(t), rendering)
  }

  predicate FrameDone(t: Timing, rendering: bool) {
    var e := Entered(t);
    e.dot + (if Skips(e, rendering) then 2 else 1) > LAST_DOT && e.scanline + 1 > PRE_RENDER
  }

  /** The counters after one dot per entry of `mask`, each entry the rendering switch at that dot. */
  function Run(t: Timing, mask: seq<bool>): Timing
    decreases |mask|
  {
    if mask == [] then t else Tick(Run(t, mask[..|mask| - 1]), mask[|mask| - 1])
  }

  function FramesDone(t: Timing, mask: seq<bool>): nat
    decreases |mask|
  {
    if mask == [] then 0
    else
      var prior := mask[..|mask| - 1];
      FramesDone(t, prior) + if FrameDone(Run(t, prior), mask[|mask| - 1]) then 1 else 0
  }

  const POWER_ON := Timing(0, 0, false, 0)

  lemma TickAccounts(t: Timing, r: bool)
    requires t.Valid()
    ensures var e := Tick(t, r);
      && e.Valid()
      && e.dotCounter - t.dotCounter == e.Position() - t.Position() + (if FrameDone(t, r) then FRAME_DOTS else 0)
      && (e.FrameStart() <==> FrameDone(t, r))
  {
  }

  /** The dot counter counts whole frames of 89342 dots, the skipped dot included. */
  lemma {:induction false} FrameArithmetic(mask: seq<bool>)
    ensures var t := Run(POWER_ON, mask);
      && t.dot <= LAST_DOT && t.scanline <= PRE_RENDER
      && t.dotCounter == FRAME_DOTS * FramesDone(POWER_ON, mask) + 341 * t.scanline + t.dot
    decreases |mask|
  {
    if mask != [] {
      hide Tick, FrameDone;
      var prior := mask[..|mask| - 1];
      FrameArithmetic(prior);
      TickAccounts(Run(POWER_ON, prior), mask[|mask| - 1]);
    }
  }

  lemma TickInside(t: Timing, r: bool)
    requires t.Valid() && t.Position() < FRAME_DOTS - 2
    ensures var e := Tick(t, r);
      e.Valid() && e.Position() == t.Position() + 1 && e.evenFrame == Entered(t).evenFrame && !FrameDone(t, r)
  {
  }

  /** In a frame, `k` dots after its first, whatever the rendering switch does. */
  lemma {:induction false} WithinFrame(t: Timing, mask: seq<bool>)
    requires t.FrameStart() && |mask| <= FRAME_DOTS - 2
    ensures var e := Run(t, mask);
      && e.Valid()
      && e.Position() == |mask|
      && (mask != [] ==> e.evenFrame == !t.evenFrame)
      && FramesDone(t, mask) == 0
    decreases |mask|
  {
    if mask != [] {
      hide Tick, FrameDone;
      var prior := mask[..|mask| - 1];
      WithinFrame(t, prior);
      TickInside(Run(t, prior), mask[|mask| - 1]);
    }
  }

  /** The rendering switch at the only dot that can be skipped over. */
  predicate RenderingAtSkip(mask: seq<bool>)
    requires |mask| >= FRAME_DOTS - 1
  {
    mask[FRAME_DOTS - 2]
  }

  function FrameLength(t: Timing, mask: seq<bool>): nat
    requires |mask| >= FRAME_DOTS - 1
  {
    if t.evenFrame && RenderingAtSkip(mask) then FRAME_DOTS - 1 else FRAME_DOTS
  }

  lemma LastDots(t: Timing, r: bool)
    requires t.Valid() && t.Position() >= FRAME_DOTS - 2
    ensures var e := Tick(t, r);
      if t.Position() == FRAME_DOTS - 1 || (r && !t.evenFrame) then
        e.FrameStart() && e.evenFrame == t.evenFrame && FrameDone(t, r)
      else
        e.Valid() && e.Position() == FRAME_DOTS - 1 && e.evenFrame == t.evenFrame && !FrameDone(t, r)
  {
  }

  /**
   A frame takes 89342 dots, or one less exactly when it is an odd frame and rendering is on at dot
   339 of the pre-render line; at its end the parity has flipped once.
   */
  lemma WholeFrame(t: Timing, mask: seq<bool>)
    requires t.FrameStart() && |mask| >= FRAME_DOTS - 1
    requires |mask| == FrameLength(t, mask)
    ensures var e := Run(t, mask);
      e.FrameStart() && e.evenFrame == !t.evenFrame && FramesDone(t, mask) == 1
  {
    hide Tick, FrameDone, Run, FramesDone;
    var a := mask[..FRAME_DOTS - 2];
    WithinFrame(t, a);
    var b := mask[..FRAME_DOTS - 1];
    assert b[..FRAME_DOTS - 2] == a;
    Unfold(t, b);
    LastDots(Run(t, a), mask[FRAME_DOTS - 2]);
    if |mask| == FRAME_DOTS {
      Unfold(t, mask);
      LastDots(Run(t, b), mask[FRAME_DOTS - 1]);
    } else {
      assert mask == b;
    }
  }

  lemma Unfold(t: Timing, mask: seq<bool>)
    requires mask != []
    ensures var prior := mask[..|mask| - 1];
      && Run(t, mask) == Tick(Run(t, prior), mask[|mask| - 1])
      && FramesDone(t, mask) == FramesDone(t, prior) + (if FrameDone(Run(t, prior), mask[|mask| - 1]) then 1 else 0)
  {
  }
}
