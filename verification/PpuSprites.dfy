/**
 Object memory and the per-line sprite evaluation of the PPU.  Primary object memory holds 64 sprites
 of four bytes (y, tile, attributes, x), secondary object memory the eight sprites of the next line.
 */
module PpuSprites {
  import opened Bits

  datatype Evaluator = Evaluator(
    oam: seq<byte>, soam: seq<byte>,
    oamAddr: nat, oamFetch: byte, clearing: bool,
    oamIndex: nat, soamIndex: nat, disabled: bool, increment: nat, writeCounter: nat, spriteY: byte)
  {
    predicate Valid() {
      && |oam| == 256 && |soam| == 32
      && oamAddr < 256 && oamIndex < 256 && soamIndex < 256 && increment <= 5 && writeCounter <= 3
    }
  }

  function LineByte(scanline: nat): byte { (scanline % 256) as byte }

  /** A sprite whose top row is `y` and whose height is `height` covers line `line`. */
  predicate InRange(y: byte, line: byte, height: byte) {
    line >= y && line - y < height
  }

  // --- one dot of clearing or evaluation

  function SecondaryWrite(e: Evaluator, addr: nat, data: byte): (r: Evaluator)
    requires e.Valid()
    ensures r.Valid()
  {
    if e.disabled then e else e.(soam := e.soam[addr % 32 := data])
  }

  /** Reading object memory while it is being cleared yields $FF. */
  function OamRead(e: Evaluator, addr: nat): byte
    requires e.Valid() && addr < 256
  {
    if e.clearing then 0xFF else e.oam[addr]
  }

  function ClearDot(e: Evaluator, dot: nat): (r: Evaluator)
    requires e.Valid() && 1 <= dot <= 64
    ensures r.Valid()
  {
    var c := e.(disabled := false, clearing := true);
    if (dot - 1) % 2 == 0 then
      c.(oamAddr := dot - 1, oamFetch := OamRead(c, dot - 1))
    else
      SecondaryWrite(c, (dot - 1) / 2, c.oamFetch)
  }

  function FetchSprite(e: Evaluator): (r: Evaluator)
    requires e.Valid()
    ensures r.Valid()
  {
    var f := OamRead(e, e.oamIndex);
    e.(oamAddr := e.oamIndex, oamFetch := f, spriteY := if e.writeCounter == 0 then f else e.spriteY)
  }

  /** What the pre-render line writes instead of the byte it fetched. */
  function Copied(e: Evaluator, preRender: bool): byte
    requires e.Valid()
  {
    if preRender then e.soam[e.soamIndex % 32] else e.oamFetch
  }

  /** An in-range sprite is taken byte by byte, another one is skipped. */
  function Judged(w: Evaluator, line: byte, height: byte, preRender: bool): (r: Evaluator)
    requires w.Valid()
    ensures r.Valid()
  {
    if InRange(w.spriteY, line, height) then
      w.(increment := 1, soamIndex := (w.soamIndex + 1) % 256,
         writeCounter := if preRender || w.writeCounter == 3 then 0 else w.writeCounter + 1)
    else
      w.(increment := 4, writeCounter := 0)
  }

  /** Secondary memory is closed when it is full. */
  function ClosedIfFull(c: Evaluator): (r: Evaluator)
    requires c.Valid()
    ensures r.Valid()
  {
    if c.soamIndex >= 32 then c.(increment := 5, disabled := true) else c
  }

  /** Primary memory has been searched when its index wraps. */
  function MovedOn(d: Evaluator, preRender: bool): (r: Evaluator)
    requires d.Valid()
    ensures r.Valid()
  {
    if preRender then d
    else d.(oamIndex := (d.oamIndex + d.increment) % 256,
            disabled := d.disabled || d.oamIndex + d.increment >= 256)
  }

  function StoreSprite(e: Evaluator, line: byte, height: byte, preRender: bool): (r: Evaluator)
    requires e.Valid()
    ensures r.Valid()
  {
    MovedOn(ClosedIfFull(Judged(SecondaryWrite(e, e.soamIndex, Copied(e, preRender)), line, height, preRender)), preRender)
  }

  function EvalDot(e: Evaluator, dot: nat, line: byte, height: byte, preRender: bool): (r: Evaluator)
    requires e.Valid() && 65 <= dot <= 256
    ensures r.Valid()
  {
    if (dot - 1) % 2 == 0 then FetchSprite(e) else StoreSprite(e, line, height, preRender)
  }

  function EvaluatorStart(e: Evaluator, dot: nat, preRender: bool): (r: Evaluator)
    requires e.Valid()
    ensures r.Valid()
  {
    if dot == 0 then e.(soamIndex := 0, oamIndex := 0, spriteY := 0, increment := 4, writeCounter := 0, disabled := false)
    else if dot == 1 && preRender then e.(disabled := true)
    else e
  }

  /** The evaluation part of dot `dot` of a rendered line. */
  function EvaluatorDot(e: Evaluator, dot: nat, line: byte, height: byte, preRender: bool): (r: Evaluator)
    requires e.Valid()
    ensures r.Valid()
  {
    var s := EvaluatorStart(e, dot, preRender);
    if 1 <= dot <= 64 then ClearDot(s, dot)
    else
      var q := s.(clearing := false);
      if 65 <= dot <= 256 then EvalDot(q, dot, line, height, preRender)
      else if 257 <= dot <= 320 then
        FetchDotIndices(q, dot)
      else q
  }

  function FetchDotIndices(q: Evaluator, dot: nat): (r: Evaluator)
    requires q.Valid() && 257 <= dot <= 320
    ensures r.Valid()
  {
    var s := if dot == 257 then 0 else q.soamIndex;
    q.(oamAddr := 0, oamIndex := 0,
       spriteY := if (dot - 1) % 8 == 0 then q.soam[s % 32] else q.spriteY,
       soamIndex := if (dot - 1) % 8 == 7 then (s + 4) % 256 else s)
  }

  function EvaluatorDots(e: Evaluator, dot: nat, n: nat, line: byte, height: byte, preRender: bool): (r: Evaluator)
    requires e.Valid()
    ensures r.Valid()
  {
    if n == 0 then e
    else EvaluatorDot(EvaluatorDots(e, dot, n - 1, line, height, preRender), dot + n - 1, line, height, preRender)
  }

  // --- what evaluation is for

  function SpriteBytes(oam: seq<byte>, n: nat): seq<byte>
    requires |oam| == 256 && n < 64
  {
    oam[4 * n..4 * n + 4]
  }

  /** The four bytes of every in-range sprite among the first `n`, in object memory order. */
  function Selected(oam: seq<byte>, n: nat, line: byte, height: byte): seq<byte>
    requires |oam| == 256 && n <= 64
  {
    if n == 0 then []
    else Selected(oam, n - 1, line, height) +
         if InRange(oam[4 * (n - 1)], line, height) then SpriteBytes(oam, n - 1) else []
  }

  // --- one pass of the evaluation automaton

  /** From index `from` on secondary object memory still holds the cleared value. */
  ghost predicate ClearFrom(soam: seq<byte>, from: nat) {
    forall i {:trigger soam[i]} :: from <= i < |soam| ==> soam[i] == 0xFF
  }

  /** `c` bytes of sprite `n` are copied; everything selected before it is in place. */
  ghost predicate Scanning(e: Evaluator, oam: seq<byte>, n: nat, c: nat, line: byte, height: byte)
    requires |oam| == 256
    ensures Scanning(e, oam, n, c, line, height) ==> e.Valid() && !e.clearing
  {
    && e.Valid() && e.oam == oam && !e.clearing && !e.disabled
    && n < 64 && c <= 3
    && e.oamIndex == 4 * n + c && e.writeCounter == c
    && var s := Selected(oam, n, line, height);
    && |s| % 4 == 0 && |s| < 32 && e.soamIndex == |s| + c
    && Begun(e.soam, s, oam, 4 * n, c)
    && (c > 0 ==> e.spriteY == oam[4 * n] && InRange(e.spriteY, line, height))
    && (c == 0 ==> Unused(e.soam[|s|], line, height))
    && ClearFrom(e.soam, if c == 0 then |s| + 1 else |s| + c)
  }

  /** `a` begins with `s` and `c` bytes of `b` from index `i`. */
  ghost predicate Begun(a: seq<byte>, s: seq<byte>, b: seq<byte>, i: nat, c: nat) {
    |s| + c <= |a| && i + c <= |b| && a[..|s| + c] == s + b[i..i + c]
  }

  /** The first byte of a slot that holds no sprite of the line. */
  predicate Unused(y: byte, line: byte, height: byte) {
    y == 0xFF || !InRange(y, line, height)
  }

  /** Evaluation is over: the first eight selected sprites are in place and nothing is written any more. */
  ghost predicate Done(e: Evaluator, oam: seq<byte>, line: byte, height: byte)
    requires |oam| == 256
    ensures Done(e, oam, line, height) ==> e.Valid() && !e.clearing
  {
    && e.Valid() && e.oam == oam && !e.clearing && e.disabled
    && Evaluated(e.soam, Selected(oam, 64, line, height), line, height)
  }

  /** The selected sprites that fit are in their slots, and no other slot holds a sprite of the line. */
  ghost predicate Evaluated(soam: seq<byte>, selected: seq<byte>, line: byte, height: byte) {
    && |soam| == 32
    && var m := if |selected| < 32 then |selected| else 32;
    && soam[..m] == selected[..m]
    && (m < 32 ==> Unused(soam[m], line, height))
    && ClearFrom(soam, m + 1)
  }

  function Pass(e: Evaluator, line: byte, height: byte): (r: Evaluator)
    requires e.Valid()
    ensures r.Valid()
  {
    StoreSprite(FetchSprite(e), line, height, false)
  }

  function SpriteTop(e: Evaluator): byte
    requires e.Valid()
  {
    if e.writeCounter == 0 then e.oam[e.oamIndex] else e.spriteY
  }

  lemma PassCopies(e: Evaluator, line: byte, height: byte)
    requires e.Valid() && !e.clearing && !e.disabled && e.soamIndex < 32
    requires InRange(SpriteTop(e), line, height)
    ensures var r := Pass(e, line, height);
      && r.oam == e.oam && !r.clearing && r.spriteY == SpriteTop(e)
      && r.soam == e.soam[e.soamIndex := e.oam[e.oamIndex]]
      && r.soamIndex == e.soamIndex + 1
      && r.writeCounter == (if e.writeCounter == 3 then 0 else e.writeCounter + 1)
      && (r.soamIndex < 32 && e.oamIndex < 255 ==> r.oamIndex == e.oamIndex + 1 && !r.disabled)
      && (r.soamIndex == 32 || e.oamIndex == 255 ==> r.disabled)
  {
    hide InRange;
  }

  lemma PassSkips(e: Evaluator, line: byte, height: byte)
    requires e.Valid() && !e.clearing && !e.disabled && e.soamIndex < 32
    requires !InRange(SpriteTop(e), line, height)
    ensures var r := Pass(e, line, height);
      && r.oam == e.oam && !r.clearing
      && r.soam == e.soam[e.soamIndex := e.oam[e.oamIndex]]
      && r.soamIndex == e.soamIndex
      && r.writeCounter == 0
      && (e.oamIndex < 252 ==> r.oamIndex == e.oamIndex + 4)
      && r.disabled == (e.oamIndex >= 252)
  {
    hide InRange;
  }

  lemma PassKeepsDone(e: Evaluator, oam: seq<byte>, line: byte, height: byte)
    requires |oam| == 256 && Done(e, oam, line, height)
    ensures Done(Pass(e, line, height), oam, line, height)
  {
    hide InRange;
    assert Pass(e, line, height).soam == e.soam;
  }

  lemma Extend(a: seq<byte>, s: seq<byte>, b: seq<byte>, i: nat, c: nat)
    requires Begun(a, s, b, i, c) && |s| + c < |a| && i + c < |b|
    ensures Begun(a[|s| + c := b[i + c]], s, b, i, c + 1)
  {
    assert a[|s| + c := b[i + c]][..|s| + c + 1] == a[..|s| + c] + [b[i + c]];
    assert b[i..i + c + 1] == b[i..i + c] + [b[i + c]];
  }

  lemma PassOutside(e: Evaluator, oam: seq<byte>, n: nat, line: byte, height: byte)
    requires |oam| == 256 && Scanning(e, oam, n, 0, line, height)
    requires !InRange(oam[4 * n], line, height)
    ensures var r := Pass(e, line, height);
      && Selected(oam, n + 1, line, height) == Selected(oam, n, line, height)
      && (n < 63 ==> Scanning(r, oam, n + 1, 0, line, height))
      && (n == 63 ==> Done(r, oam, line, height))
  {
    hide InRange, Pass, Selected, ClearFrom;
    PassSkips(e, line, height);
    SelectedNext(oam, n, line, height);
    var s := Selected(oam, n, line, height);
    var r := Pass(e, line, height);
    assert |s| < 32 && r.soam == e.soam[|s| := oam[4 * n]];
    assert r.soam[..|s|] == e.soam[..|s|];
    ClearPast(e.soam, |s| + 1, |s|, oam[4 * n]);
  }

  lemma SelectedNext(oam: seq<byte>, n: nat, line: byte, height: byte)
    requires |oam| == 256 && n < 64
    ensures Selected(oam, n + 1, line, height)
         == Selected(oam, n, line, height) + if InRange(oam[4 * n], line, height) then SpriteBytes(oam, n) else []
  {
    hide InRange;
  }

  lemma ClearPast(soam: seq<byte>, from: nat, k: nat, data: byte)
    requires ClearFrom(soam, from) && k < |soam|
    requires from == k || from == k + 1
    ensures ClearFrom(soam[k := data], k + 1)
  {
  }

  lemma PassInside(e: Evaluator, oam: seq<byte>, n: nat, c: nat, line: byte, height: byte)
    requires |oam| == 256 && c < 3 && Scanning(e, oam, n, c, line, height)
    requires InRange(oam[4 * n], line, height)
    ensures Scanning(Pass(e, line, height), oam, n, c + 1, line, height)
  {
    hide InRange, Selected, Pass, ClearFrom, Begun, Unused;
    PassCopies(e, line, height);
    var s := Selected(oam, n, line, height);
    assert |s| + c < 32 && 4 * n + c < 256 && SpriteTop(e) == oam[4 * n];
    var r := Pass(e, line, height);
    assert r.soam == e.soam[|s| + c := oam[4 * n + c]];
    ClearPast(e.soam, if c == 0 then |s| + 1 else |s| + c, |s| + c, oam[4 * n + c]);
    Extend(e.soam, s, oam, 4 * n, c);
  }

  lemma PassLast(e: Evaluator, oam: seq<byte>, n: nat, line: byte, height: byte)
    requires |oam| == 256 && Scanning(e, oam, n, 3, line, height)
    ensures var r := Pass(e, line, height);
      var s := Selected(oam, n + 1, line, height);
      && s == Selected(oam, n, line, height) + SpriteBytes(oam, n)
      && |s| <= 32 && r.soam[..|s|] == s && ClearFrom(r.soam, |s|)
      && r.Valid() && r.oam == oam && !r.clearing && r.writeCounter == 0 && r.soamIndex == |s|
      && (n < 63 && |s| < 32 ==> !r.disabled && r.oamIndex == 4 * (n + 1))
      && (n == 63 || |s| == 32 ==> r.disabled)
  {
    hide InRange, Pass;
    PassCopies(e, line, height);
    var s := Selected(oam, n, line, height);
    assert Selected(oam, n + 1, line, height) == s + SpriteBytes(oam, n);
    hide Selected;
    Extend(e.soam, s, oam, 4 * n, 3);
  }

  lemma PassFourth(e: Evaluator, oam: seq<byte>, n: nat, line: byte, height: byte)
    requires |oam| == 256 && Scanning(e, oam, n, 3, line, height)
    ensures var r := Pass(e, line, height);
      Done(r, oam, line, height) || (n < 63 && Scanning(r, oam, n + 1, 0, line, height))
  {
    hide InRange, Pass, Selected;
    PassLast(e, oam, n, line, height);
    SelectedGrows(oam, n + 1, 64, line, height);
  }

  lemma {:induction false} SelectedGrows(oam: seq<byte>, n: nat, m: nat, line: byte, height: byte)
    requires |oam| == 256 && n <= m <= 64
    ensures Selected(oam, n, line, height) <= Selected(oam, m, line, height)
  {
    hide InRange;
    if n < m {
      SelectedGrows(oam, n, m - 1, line, height);
    }
  }

  // --- from one pass to the whole line

  lemma TwoDots(e: Evaluator, dot: nat, line: byte, height: byte)
    requires e.Valid() && !e.clearing && 65 <= dot <= 255 && dot % 2 == 1
    ensures EvaluatorDots(e, dot, 2, line, height, false) == Pass(e, line, height)
  {
    hide InRange, StoreSprite, FetchSprite;
    var a := EvaluatorDots(e, dot, 1, line, height, false);
    assert EvaluatorDots(e, dot, 0, line, height, false) == e;
    assert a == EvaluatorDot(e, dot, line, height, false) == FetchSprite(e);
    FetchKeeps(e);
    assert EvaluatorDots(e, dot, 2, line, height, false) == EvaluatorDot(a, dot + 1, line, height, false);
  }

  lemma FetchKeeps(e: Evaluator)
    requires e.Valid()
    ensures FetchSprite(e).clearing == e.clearing
  {
  }

  lemma {:induction false} Dots(e: Evaluator, dot: nat, a: nat, b: nat, line: byte, height: byte, preRender: bool)
    requires e.Valid()
    ensures EvaluatorDots(e, dot, a + b, line, height, preRender)
         == EvaluatorDots(EvaluatorDots(e, dot, a, line, height, preRender), dot + a, b, line, height, preRender)
  {
    hide EvaluatorDot;
    if b > 0 {
      Dots(e, dot, a, b - 1, line, height, preRender);
    }
  }

  lemma {:induction false} Coast(e: Evaluator, oam: seq<byte>, dot: nat, line: byte, height: byte)
    requires |oam| == 256 && Done(e, oam, line, height)
    requires 65 <= dot <= 257 && dot % 2 == 1
    ensures Done(EvaluatorDots(e, dot, 257 - dot, line, height, false), oam, line, height)
    decreases 257 - dot
  {
    hide Pass, EvaluatorDot, Evaluated, InRange;
    if dot < 257 {
      TwoDots(e, dot, line, height);
      PassKeepsDone(e, oam, line, height);
      Coast(Pass(e, line, height), oam, dot + 2, line, height);
      Dots(e, dot, 2, 255 - dot, line, height, false);
    }
  }

  /** The dots that the first `n` sprites take: two for each, six more for each that is selected. */
  function DotOf(oam: seq<byte>, n: nat, line: byte, height: byte): nat
    requires |oam| == 256 && n <= 64
  {
    65 + 2 * n + 6 * (|Selected(oam, n, line, height)| / 4)
  }

  lemma CopySprite(e: Evaluator, oam: seq<byte>, n: nat, dot: nat, line: byte, height: byte)
    requires |oam| == 256 && Scanning(e, oam, n, 0, line, height)
    requires InRange(oam[4 * n], line, height)
    requires 65 <= dot <= 249 && dot % 2 == 1
    ensures var r := EvaluatorDots(e, dot, 8, line, height, false);
      Done(r, oam, line, height) || (n < 63 && Scanning(r, oam, n + 1, 0, line, height))
  {
    hide Pass, EvaluatorDot, EvaluatorDots, Evaluated, Selected, InRange, ClearFrom, Scanning;
    var e1 := Pass(e, line, height);
    var e2 := Pass(e1, line, height);
    var e3 := Pass(e2, line, height);
    TwoDots(e, dot, line, height);
    PassInside(e, oam, n, 0, line, height);
    TwoDots(e1, dot + 2, line, height);
    PassInside(e1, oam, n, 1, line, height);
    TwoDots(e2, dot + 4, line, height);
    PassInside(e2, oam, n, 2, line, height);
    TwoDots(e3, dot + 6, line, height);
    PassFourth(e3, oam, n, line, height);
    Dots(e, dot, 2, 2, line, height, false);
    Dots(e, dot, 4, 2, line, height, false);
    Dots(e, dot, 6, 2, line, height, false);
  }

  /** One more sprite takes two dots, or eight if it is selected. */
  lemma DotNext(e: Evaluator, oam: seq<byte>, n: nat, line: byte, height: byte)
    requires |oam| == 256 && Scanning(e, oam, n, 0, line, height)
    ensures var dot := DotOf(oam, n, line, height);
      && 65 <= dot <= 249 && dot % 2 == 1
      && DotOf(oam, n + 1, line, height) == dot + SpriteDots(oam, n, line, height)
  {
    hide InRange, ClearFrom;
  }

  function SpriteDots(oam: seq<byte>, n: nat, line: byte, height: byte): nat
    requires |oam| == 256 && n < 64
  {
    if InRange(oam[4 * n], line, height) then 8 else 2
  }

  lemma ScanSprite(e: Evaluator, oam: seq<byte>, n: nat, dot: nat, line: byte, height: byte)
    requires |oam| == 256 && n < 64 && Scanning(e, oam, n, 0, line, height)
    requires 65 <= dot <= 249 && dot % 2 == 1
    ensures var r := EvaluatorDots(e, dot, SpriteDots(oam, n, line, height), line, height, false);
      Done(r, oam, line, height) || (n < 63 && Scanning(r, oam, n + 1, 0, line, height))
  {
    hide Pass, EvaluatorDot, EvaluatorDots, InRange, Scanning, Done, Selected;
    if InRange(oam[4 * n], line, height) {
      CopySprite(e, oam, n, dot, line, height);
    } else {
      TwoDots(e, dot, line, height);
      PassOutside(e, oam, n, line, height);
    }
  }

  lemma {:induction false} Scan(e: Evaluator, oam: seq<byte>, n: nat, line: byte, height: byte)
    requires |oam| == 256 && n < 64 && Scanning(e, oam, n, 0, line, height)
    ensures var dot := DotOf(oam, n, line, height);
      && dot <= 249
      && Done(EvaluatorDots(e, dot, 257 - dot, line, height, false), oam, line, height)
    decreases 64 - n
  {
    hide Pass, EvaluatorDot, EvaluatorDots, InRange, DotOf, Scanning, Done, Selected;
    var dot := DotOf(oam, n, line, height);
    DotNext(e, oam, n, line, height);
    var d := SpriteDots(oam, n, line, height);
    ScanSprite(e, oam, n, dot, line, height);
    var r := EvaluatorDots(e, dot, d, line, height, false);
    Dots(e, dot, d, 257 - dot - d, line, height, false);
    if Done(r, oam, line, height) {
      Coast(r, oam, dot + d, line, height);
    } else {
      Scan(r, oam, n + 1, line, height);
    }
  }

  // --- clearing

  /** After dot `n` of clearing. */
  ghost predicate Cleared(r: Evaluator, oam: seq<byte>, n: nat) {
    && r.Valid()
    && r.oam == oam && !r.disabled && r.oamIndex == 0 && r.soamIndex == 0 && r.writeCounter == 0
    && (n % 2 == 1 ==> r.oamFetch == 0xFF)
    && (forall i {:trigger r.soam[i]} :: 0 <= i < n / 2 && i < 32 ==> r.soam[i] == 0xFF)
  }

  lemma {:induction false} Clearing(e: Evaluator, n: nat, line: byte, height: byte, preRender: bool)
    requires e.Valid() && n <= 64
    ensures Cleared(EvaluatorDots(e, 0, n + 1, line, height, preRender), e.oam, n)
  {
    hide EvaluatorDot, Cleared;
    if n == 0 {
      assert EvaluatorDots(e, 0, 0, line, height, preRender) == e;
      ClearingStarts(e, line, height, preRender);
    } else {
      Clearing(e, n - 1, line, height, preRender);
      ClearingStep(EvaluatorDots(e, 0, n, line, height, preRender), e.oam, n, line, height, preRender);
    }
  }

  lemma ClearingStarts(e: Evaluator, line: byte, height: byte, preRender: bool)
    requires e.Valid()
    ensures Cleared(EvaluatorDot(e, 0, line, height, preRender), e.oam, 0)
  {
  }

  lemma ClearingStep(r: Evaluator, oam: seq<byte>, n: nat, line: byte, height: byte, preRender: bool)
    requires 1 <= n <= 64 && Cleared(r, oam, n - 1)
    ensures Cleared(EvaluatorDot(r, n, line, height, preRender), oam, n)
  {
    hide InRange, EvalDot;
    if n % 2 == 1 {
      assert n / 2 == (n - 1) / 2;
    } else {
      assert (n - 1) / 2 == n / 2 - 1;
    }
  }

  /**
   Sprite evaluation over one visible line: after dot 256 secondary object memory holds, in object
   memory order and with all four bytes each, the first eight of the sprites that cover the line.  The
   slot behind them starts with no sprite of the line, and every byte past that one is still $FF.
   */
  lemma EvaluationSelectsFirstEight(e: Evaluator, line: byte, height: byte)
    requires e.Valid()
    ensures var r := EvaluatorDots(e, 0, 257, line, height, false);
      r.oam == e.oam && Evaluated(r.soam, Selected(e.oam, 64, line, height), line, height)
  {
    hide EvaluatorDots, Selected, DotOf, Done, InRange, Evaluated;
    Clearing(e, 64, line, height, false);
    var c := EvaluatorDots(e, 0, 65, line, height, false);
    var q := c.(clearing := false);
    Dots(e, 0, 65, 192, line, height, false);
    FirstDot(c, line, height);
    StartOfScan(e.oam, line, height);
    assert q.soam[..0] == Selected(e.oam, 0, line, height) + e.oam[0..0];
    Scan(q, e.oam, 0, line, height);
    DoneMeans(EvaluatorDots(e, 0, 257, line, height, false), e.oam, line, height);
  }

  lemma DoneMeans(r: Evaluator, oam: seq<byte>, line: byte, height: byte)
    requires |oam| == 256 && Done(r, oam, line, height)
    ensures r.oam == oam && Evaluated(r.soam, Selected(oam, 64, line, height), line, height)
  {
    hide Evaluated, Selected;
  }

  lemma StartOfScan(oam: seq<byte>, line: byte, height: byte)
    requires |oam| == 256
    ensures Selected(oam, 0, line, height) == [] && DotOf(oam, 0, line, height) == 65
  {
  }

  /** Dot 65 ends the clearing phase before it reads. */
  lemma FirstDot(c: Evaluator, line: byte, height: byte)
    requires c.Valid()
    ensures EvaluatorDots(c, 65, 192, line, height, false)
         == EvaluatorDots(c.(clearing := false), 65, 192, line, height, false)
  {
    hide InRange, FetchSprite, StoreSprite;
    var q := c.(clearing := false);
    Dots(c, 65, 1, 191, line, height, false);
    Dots(q, 65, 1, 191, line, height, false);
    One(c, 65, line, height);
    One(q, 65, line, height);
  }

  lemma One(e: Evaluator, dot: nat, line: byte, height: byte)
    requires e.Valid()
    ensures EvaluatorDots(e, dot, 1, line, height, false) == EvaluatorDot(e, dot, line, height, false)
  {
    hide EvaluatorDot;
    assert EvaluatorDots(e, dot, 0, line, height, false) == e;
  }

  // --- the pre-render line

  lemma StoresBack(e: Evaluator, line: byte, height: byte)
    requires e.Valid()
    ensures StoreSprite(e, line, height, true).oam == e.oam && StoreSprite(e, line, height, true).soam == e.soam
  {
    hide InRange;
    var i := e.soamIndex % 32;
    assert e.soam[i := e.soam[i]] == e.soam;
  }

  lemma {:induction false} PreRenderKeeps(e: Evaluator, k: nat, line: byte, height: byte)
    requires e.Valid() && k <= 192
    ensures var r := EvaluatorDots(e, 65, k, line, height, true); r.oam == e.oam && r.soam == e.soam
    decreases k
  {
    hide InRange, StoreSprite;
    if k > 0 {
      PreRenderKeeps(e, k - 1, line, height);
      var q := EvaluatorDots(e, 65, k - 1, line, height, true);
      StoresBack(q.(clearing := false), line, height);
    }
  }

  /** The pre-render line writes back what it reads: no sprite is in secondary memory behind it. */
  lemma PreRenderClears(e: Evaluator, line: byte, height: byte)
    requires e.Valid()
    ensures var r := EvaluatorDots(e, 0, 257, line, height, true);
      r.oam == e.oam && forall i {:trigger r.soam[i]} :: 0 <= i < 32 ==> r.soam[i] == 0xFF
  {
    hide EvaluatorDots;
    Clearing(e, 64, line, height, true);
    Dots(e, 0, 65, 192, line, height, true);
    PreRenderKeeps(EvaluatorDots(e, 0, 65, line, height, true), 192, line, height);
  }

  // --- the in-range test in numbers

  /** On a visible line the test is: y <= line < y + height. */
  lemma InRangeMeans(y: byte, scanline: nat, tall: bool)
    requires scanline < 240
    ensures InRange(y, LineByte(scanline), if tall then 16 else 8)
       <==> Num(y) <= scanline < Num(y) + (if tall then 16 else 8)
  {
    var line := LineByte(scanline);
    hide Num;
    ByteOf(scanline);
    if y <= line {
      NumDifference(y, line);
      NumOrder(Minus(line, y), if tall then 16 else 8);
    } else {
      NumOrder(line, y);
    }
    assert Num(16) == 16 && Num(8) == 8 by { NumConstants(); }
  }
}
