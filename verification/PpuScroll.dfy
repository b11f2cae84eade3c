/**
 The scroll position register of the PPU: the in-place bit arithmetic that walks it across the
 nametables, and the picture of it as four coordinates.
 */
module PpuScroll {
  import opened Bits

  // The four coordinates packed into a scroll position.
  function CoarseX(v: word): word { v & 31 }
  function CoarseY(v: word): word { (v >> 5) & 31 }
  function Nametable(v: word): word { (v >> 10) & 3 }
  function FineY(v: word): word { (v & 0x7000) >> 12 }

  /** One tile to the right, into the horizontally neighbouring nametable after column 31. */
  function IncCoarseX(v: word): word {
    if v & 0x1F == 31 then (v & 0xFFE0) ^ 0x400 else v + 1
  }

  function NextPixelRow(v: word): word {
    v + 0x1000
  }

  /** The first pixel row of the next tile row; row 29 leads into the vertical neighbour, row 31 wraps without it. */
  function NextTileRow(v: word): word {
    var w := v & 0x8FFF;
    var y := (w & 0x03E0) >> 5;
    if y == 29 then (w ^ 0x800) & 0xFC1F
    else if y == 31 then w & 0xFC1F
    else (w & 0xFC1F) | ((y + 1) << 5)
  }

  /** One pixel row down. */
  function IncY(v: word): word {
    if v & 0x7000 == 0x7000 then NextTileRow(v) else NextPixelRow(v)
  }

  function CopyHorizontal(v: word, t: word): word {
    (v & 0xFBE0) | (t & 0x041F)
  }

  function CopyVertical(v: word, t: word): word {
    (v & 0x841F) | (t & 0x7BE0)
  }

  /** The tile column, 0..63, counted across two horizontally neighbouring nametables. */
  function Column(v: word): word {
    ((v >> 5) & 0x20) | (v & 0x1F)
  }

  /** `v` moved to tile column `c` modulo 64 of its row. */
  function AtColumn(v: word, c: word): word {
    (v & 0xFBE0) | ((c & 0x20) << 5) | (c & 0x1F)
  }

  /** The scroll position `j` tiles to the right of `v`, wrapping around the 64 columns. */
  function Right(v: word, j: nat): word {
    AtColumn(v, Plus(Column(v), j))
  }

  /** `v` after `n` pixel rows. */
  function Down(v: word, n: nat): word {
    if n == 0 then v else IncY(Down(v, n - 1))
  }

  // --- horizontal walk

  lemma Slide(v: word, c: word)
    ensures IncCoarseX(AtColumn(v, c)) == AtColumn(v, c + 1)
    ensures AtColumn(v, Column(v)) == v
    ensures Column(AtColumn(v, c)) == c & 0x3F
  {
  }

  /** The branchy increment is one step along a ring of 64 columns. */
  lemma {:induction false} RightNext(v: word, j: nat)
    ensures Right(v, 0) == v
    ensures Right(v, j + 1) == IncCoarseX(Right(v, j))
  {
    hide IncCoarseX, AtColumn, Column;
    Slide(v, Plus(Column(v), j));
    Slide(v, Column(v));
  }

  lemma HorizontalParts(v: word, t: word, c: word)
    ensures CopyHorizontal(IncY(AtColumn(v, c)), t) == IncY(CopyHorizontal(v, t))
  {
  }

  /**
   Vertical and horizontal steps touch disjoint bits, so a whole line of tile steps followed by the
   vertical step and the reload of the horizontal bits is one vertical step from the line's start.
   */
  lemma LineStep(v: word, t: word, j: nat)
    ensures CopyHorizontal(IncY(Right(v, j)), t) == IncY(CopyHorizontal(v, t))
  {
    HorizontalParts(v, t, Plus(Column(v), j));
  }

  lemma DisjointSteps(v: word)
    ensures IncCoarseX(v) & 0xFBE0 == v & 0xFBE0
    ensures IncY(v) & 0x841F == v & 0x841F
  {
  }

  // --- vertical walk

  function TileRow(v: word): byte { CoarseY(v) as byte }
  function PixelRow(v: word): byte { FineY(v) as byte }

  /** The pixel row, 0..479, counted across two vertically neighbouring nametables of 240 rows. */
  function Row(v: word): nat {
    (if v & 0x800 != 0 then 240 else 0) + 8 * Num(TileRow(v)) + Num(PixelRow(v))
  }

  lemma IncYFields(v: word)
    ensures PixelRow(v) < 7 ==>
      PixelRow(IncY(v)) == PixelRow(v) + 1 && TileRow(IncY(v)) == TileRow(v) && IncY(v) & 0x800 == v & 0x800
    ensures PixelRow(v) == 7 && TileRow(v) < 29 ==>
      PixelRow(IncY(v)) == 0 && TileRow(IncY(v)) == TileRow(v) + 1 && IncY(v) & 0x800 == v & 0x800
    ensures PixelRow(v) == 7 && TileRow(v) == 29 ==>
      PixelRow(IncY(v)) == 0 && TileRow(IncY(v)) == 0 && IncY(v) & 0x800 != v & 0x800
    ensures PixelRow(v) <= 7
  {
  }

  lemma RowBounds(v: word)
    ensures PixelRow(v) <= 7 && Num(PixelRow(v)) <= 7 && (Num(PixelRow(v)) == 7 <==> PixelRow(v) == 7)
    ensures TileRow(v) < 30 <==> Num(TileRow(v)) < 30
    ensures Num(TileRow(v)) == 29 <==> TileRow(v) == 29
  {
    hide TileRow, PixelRow, Num, Row;
    IncYFields(v);
    RowNumbers();
    NumOrder(7, PixelRow(v));
    NumOrder(PixelRow(v), 7);
    NumOrder(TileRow(v), 30);
    NumOrder(TileRow(v), 29);
    NumOrder(29, TileRow(v));
  }

  lemma RowNumbers()
    ensures Num(0) == 0 && Num(7) == 7 && Num(29) == 29 && Num(30) == 30
  {
  }

  /** From a row inside the 30 tile rows the vertical step is one step along a ring of 480 rows. */
  lemma NextRow(v: word)
    requires TileRow(v) < 30
    ensures TileRow(IncY(v)) < 30
    ensures Row(v) < 480
    ensures Row(IncY(v)) == (Row(v) + 1) % 480
  {
    hide IncY, TileRow, PixelRow, Num;
    IncYFields(v);
    RowBounds(v);
    RowBounds(IncY(v));
    RowNumbers();
    if PixelRow(v) < 7 {
      NumSucc(PixelRow(v));
    } else if TileRow(v) < 29 {
      NumSucc(TileRow(v));
    }
  }

  lemma {:induction false} DownRow(v: word, n: nat)
    requires TileRow(v) < 30
    ensures TileRow(Down(v, n)) < 30
    ensures Row(Down(v, n)) == (Row(v) + n) % 480
    ensures Down(v, n) & 0x841F == v & 0x841F
  {
    hide IncY, TileRow, PixelRow, Row;
    NextRow(v);
    if n > 0 {
      DownRow(v, n - 1);
      NextRow(Down(v, n - 1));
      DisjointSteps(Down(v, n - 1));
    }
  }

  lemma SameByte(a: byte, b: byte)
    requires Num(a) == Num(b)
    ensures a == b
  {
    hide Num;
    NumOrder(a, b);
    NumOrder(b, a);
  }

  lemma SameFields(v: word, w: word)
    requires v & 0x841F == w & 0x841F
    requires PixelRow(v) == PixelRow(w) && TileRow(v) == TileRow(w) && v & 0x800 == w & 0x800
    ensures v == w
  {
  }

  /** Row and horizontal bits determine a scroll position inside the 30 tile rows. */
  lemma RowDetermines(v: word, w: word)
    requires TileRow(v) < 30 && TileRow(w) < 30
    requires Row(v) == Row(w) && v & 0x841F == w & 0x841F
    ensures v == w
  {
    hide TileRow, PixelRow, Num;
    RowBounds(v);
    RowBounds(w);
    VerticalNametable(v);
    VerticalNametable(w);
    SameByte(PixelRow(v), PixelRow(w));
    SameByte(TileRow(v), TileRow(w));
    SameFields(v, w);
  }

  lemma VerticalNametable(v: word)
    ensures v & 0x800 == 0 || v & 0x800 == 0x800
  {
  }

  /** A full turn of the ring of rows restores the scroll position. */
  lemma VerticalPeriod(v: word)
    requires TileRow(v) < 30
    ensures Down(v, 480) == v
  {
    hide IncY, TileRow, PixelRow, Row, Down;
    NextRow(v);
    DownRow(v, 480);
    RowDetermines(v, Down(v, 480));
  }
}
