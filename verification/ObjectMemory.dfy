/**
 The 288 cells that hold both object memories, interleaved: after every eight primary bytes comes one
 secondary byte.
 */
module ObjectMemory {
  import opened Bits

  const CELLS := 288

  /** The cell of primary byte `a`. */
  function PrimaryCell(a: nat): (c: nat)
    requires a < 256
    ensures c < CELLS && c % 9 != 8
  {
    a / 8 * 9 + a % 8
  }

  /** The cell of secondary byte `a`; only the low five bits of the address count. */
  function SecondaryCell(a: nat): (c: nat)
    ensures c < CELLS && c % 9 == 8
  {
    a % 32 * 9 + 8
  }

  lemma CellsApart(a: nat, b: nat)
    requires a < 256 && b < 256
    ensures PrimaryCell(a) == PrimaryCell(b) <==> a == b
    ensures a < 32 && b < 32 ==> (SecondaryCell(a) == SecondaryCell(b) <==> a == b)
    ensures PrimaryCell(a) != SecondaryCell(b)
  {
    hide PrimaryCell, SecondaryCell;
    PrimaryApart(a, b);
    SecondaryApart(a, b);
  }

  lemma PrimaryApart(a: nat, b: nat)
    requires a < 256 && b < 256
    ensures PrimaryCell(a) == PrimaryCell(b) <==> a == b
  {
    NinesApart(a / 8, a % 8, b / 8, b % 8);
  }

  lemma SecondaryApart(a: nat, b: nat)
    ensures a < 32 && b < 32 ==> (SecondaryCell(a) == SecondaryCell(b) <==> a == b)
  {
  }

  lemma NinesApart(p: nat, r: nat, q: nat, s: nat)
    requires r < 8 && s < 8
    ensures p * 9 + r == q * 9 + s <==> p == q && r == s
  {
  }

  function Primary(cells: seq<byte>): (p: seq<byte>)
    requires |cells| == CELLS
    ensures |p| == 256
  {
    seq(256, i requires 0 <= i < 256 => cells[PrimaryCell(i)])
  }

  function Secondary(cells: seq<byte>): (s: seq<byte>)
    requires |cells| == CELLS
    ensures |s| == 32
  {
    seq(32, i requires 0 <= i < 32 => cells[SecondaryCell(i)])
  }

  /** The interleaving loses nothing: every cell is a primary or a secondary byte. */
  lemma EveryCell(cells: seq<byte>, c: nat)
    requires |cells| == CELLS && c < CELLS
    ensures if c % 9 == 8 then SecondaryCell(c / 9) == c && Secondary(cells)[c / 9] == cells[c]
            else PrimaryCell(c / 9 * 8 + c % 9) == c && Primary(cells)[c / 9 * 8 + c % 9] == cells[c]
  {
  }

  lemma PrimaryWritten(cells: seq<byte>, a: nat, v: byte)
    requires |cells| == CELLS && a < 256
    ensures var w := cells[PrimaryCell(a) := v];
      Primary(w) == Primary(cells)[a := v] && Secondary(w) == Secondary(cells)
  {
    hide PrimaryCell, SecondaryCell;
    var w := cells[PrimaryCell(a) := v];
    forall i | 0 <= i < 256
      ensures Primary(w)[i] == Primary(cells)[a := v][i]
    {
      CellsApart(i, a);
    }
    forall i | 0 <= i < 32
      ensures Secondary(w)[i] == Secondary(cells)[i]
    {
      CellsApart(a, i);
    }
  }

  lemma SecondaryWritten(cells: seq<byte>, a: nat, v: byte)
    requires |cells| == CELLS
    ensures var w := cells[SecondaryCell(a) := v];
      Primary(w) == Primary(cells) && Secondary(w) == Secondary(cells)[a % 32 := v]
  {
    LowBits(a);
    hide PrimaryCell, SecondaryCell;
    var w := cells[SecondaryCell(a) := v];
    forall i | 0 <= i < 256
      ensures Primary(w)[i] == Primary(cells)[i]
    {
      CellsApart(i, a % 32);
    }
    forall i | 0 <= i < 32
      ensures Secondary(w)[i] == Secondary(cells)[a % 32 := v][i]
    {
      CellsApart(i, a % 32);
    }
  }

  lemma LowBits(a: nat)
    ensures a % 32 < 32 && SecondaryCell(a % 32) == SecondaryCell(a)
  {
  }

  // --- writes through the object memory port

  /** The unused bits of an attribute byte are not stored. */
  function StoredBits(a: nat, v: byte): byte {
    if a % 4 == 2 then v & 0xE3 else v
  }

  datatype Port = Port(cells: seq<byte>, addr: nat)
  {
    predicate Valid() {
      |cells| == CELLS && addr < 256
    }
  }

  /** A write on a line that is drawn is dropped and moves the address by a whole sprite. */
  function WritePort(p: Port, v: byte, drawing: bool): (r: Port)
    requires p.Valid()
    ensures r.Valid()
  {
    if drawing then p.(addr := (p.addr + 4) % 256)
    else Port(p.cells[PrimaryCell(p.addr) := StoredBits(p.addr, v)], (p.addr + 1) % 256)
  }

  function WriteAll(p: Port, data: seq<byte>): (r: Port)
    requires p.Valid()
    ensures r.Valid()
  {
    if data == [] then p else WritePort(WriteAll(p, data[..|data| - 1]), data[|data| - 1], false)
  }

  /** Writes move on by one byte each, and leave secondary memory alone. */
  lemma {:induction false} MovesOn(p: Port, data: seq<byte>)
    requires p.Valid()
    ensures var r := WriteAll(p, data);
      r.addr == (p.addr + |data|) % 256 && Secondary(r.cells) == Secondary(p.cells)
    decreases |data|
  {
    hide Primary, Secondary, PrimaryCell, StoredBits;
    if data != [] {
      var most := data[..|data| - 1];
      MovesOn(p, most);
      var q := WriteAll(p, most);
      PrimaryWritten(q.cells, q.addr, StoredBits(q.addr, data[|data| - 1]));
      OneFurther(p.addr, |most|);
    }
  }

  lemma OneFurther(a: nat, k: nat)
    ensures ((a + k) % 256 + 1) % 256 == (a + (k + 1)) % 256
  {
  }

  /** Up to 256 writes fill consecutive bytes from the address on, wrapping, and leave the others alone. */
  lemma {:induction false} FillsByte(p: Port, data: seq<byte>, i: nat)
    requires p.Valid() && |data| <= 256 && i < 256
    ensures var a := (p.addr + i) % 256;
      Primary(WriteAll(p, data).cells)[a] == if i < |data| then StoredBits(a, data[i]) else Primary(p.cells)[a]
    decreases |data|
  {
    hide Primary, Secondary, PrimaryCell, StoredBits;
    if data != [] {
      var k := |data| - 1;
      var most := data[..k];
      FillsByte(p, most, i);
      MovesOn(p, most);
      var q := WriteAll(p, most);
      PrimaryWritten(q.cells, q.addr, StoredBits(q.addr, data[k]));
      if i != k {
        Distinct(p.addr, i, k);
      }
    }
  }

  lemma Distinct(a: nat, i: nat, k: nat)
    requires i < 256 && k < 256 && i != k
    ensures (a + i) % 256 != (a + k) % 256
  {
  }

  /** A full page leaves the address where it was and every primary byte replaced. */
  lemma FillsPage(p: Port, data: seq<byte>)
    requires p.Valid() && |data| == 256
    ensures var r := WriteAll(p, data);
      && r.addr == p.addr && Secondary(r.cells) == Secondary(p.cells)
      && (forall a {:trigger Primary(r.cells)[a]} :: 0 <= a < 256 ==>
            Primary(r.cells)[a] == StoredBits(a, data[(a + 256 - p.addr) % 256]))
  {
    hide Primary, Secondary, StoredBits, WriteAll;
    MovesOn(p, data);
    var r := WriteAll(p, data);
    forall a {:trigger Primary(r.cells)[a]} | 0 <= a < 256
      ensures Primary(r.cells)[a] == StoredBits(a, data[(a + 256 - p.addr) % 256])
    {
      var i := (a + 256 - p.addr) % 256;
      FillsByte(p, data, i);
      assert (p.addr + i) % 256 == a;
    }
  }
}
