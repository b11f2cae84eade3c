/**
 Words of the emulated machine.  Data bytes and addresses are bit-vectors, so that masks, shifts and
 wrap-around mean what they mean in the emulator; counters that only index something are integers.
 */
module Bits {

  type byte = bv8
  type word = bv16

  /** The mask of pixel or bit position `p`, counted from the most significant bit. */
  function Mask(p: nat): byte
    requires p < 8
  {
    match p
    case 0 => 0x80
    case 1 => 0x40
    case 2 => 0x20
    case 3 => 0x10
    case 4 => 0x08
    case 5 => 0x04
    case 6 => 0x02
    case 7 => 0x01
  }

  /** Bit `p` of `b`, counted from the most significant bit. */
  predicate BitAt(b: byte, p: nat)
    requires p < 8
  {
    b & Mask(p) != 0
  }

  function Pair(hi: byte, lo: byte): word {
    ((hi as word) << 8) | (lo as word)
  }

  function High(w: word): byte {
    (w >> 8) as byte
  }

  function Low(w: word): byte {
    (w & 0xFF) as byte
  }

  /** `w` plus the number `n`, wrapping as the hardware does. */
  function Plus(w: word, n: nat): word {
    if n == 0 then w else Plus(w, n - 1) + 1
  }

  // --- byte operations by name

  function And(a: byte, b: byte): byte { a & b }
  function Or(a: byte, b: byte): byte { a | b }
  function Xor(a: byte, b: byte): byte { a ^ b }
  function Minus(a: byte, b: byte): byte { a - b }
  function Inc(a: byte): byte { a + 1 }
  function Dec(a: byte): byte { a - 1 }
  predicate Less(a: byte, b: byte) { a < b }

  // --- bytes as numbers

  function Num(b: byte): nat { b as int }

  lemma NumConstants()
    ensures Num(0) == 0 && Num(8) == 8 && Num(16) == 16
  {
  }

  lemma NumSucc(b: byte)
    requires b != 0xFF
    ensures Num(b + 1) == Num(b) + 1
  {
  }

  function NthByte(n: nat): byte {
    if n == 0 then 0 else NthByte(n - 1) + 1
  }

  lemma {:induction false} NthByteNum(n: nat)
    requires n < 256
    ensures Num(NthByte(n)) == n
    decreases n
  {
    hide Num;
    if n == 0 {
      NumConstants();
    } else {
      NthByteNum(n - 1);
      LastNum();
      NumSucc(NthByte(n - 1));
    }
  }

  lemma LastNum()
    ensures Num(0xFF) == 255
  {
  }

  lemma BackAgain(b: byte)
    ensures Num(b) < 256 && Num(b) as byte == b
  {
  }

  lemma ByteOf(n: nat)
    requires n < 256
    ensures Num(n as byte) == n
  {
    hide Num, NthByte;
    NthByteNum(n);
    BackAgain(NthByte(n));
  }

  lemma Below(a: byte, b: byte) returns (p: byte, q: byte)
    requires a < b
    ensures p != 0xFF && b == p + 1 && a <= p
    ensures q == p - a && q != 0xFF && b - a == q + 1
  {
    p, q := b - 1, b - 1 - a;
  }

  predicate Le(a: byte, b: byte) { a <= b }

  lemma {:induction false} NumDifference(a: byte, b: byte)
    requires Le(a, b)
    ensures Num(b) == Num(a) + Num(Minus(b, a))
    decreases Num(b)
  {
    if a == b {
      assert Minus(b, a) == 0;
      NumConstants();
    } else {
      var p, q := Below(a, b);
      assert Le(a, p) && Minus(p, a) == q && Minus(b, a) == q + 1;
      hide Num, Minus, Le;
      NumSucc(p);
      NumSucc(q);
      NumDifference(a, p);
    }
  }

  lemma Positive(b: byte)
    requires b != 0
    ensures Num(b) > 0
  {
  }

  lemma NumOrder(a: byte, b: byte)
    ensures a < b <==> Num(a) < Num(b)
  {
    hide Num;
    if a < b {
      NumDifference(a, b);
      Positive(Minus(b, a));
    } else {
      NumDifference(b, a);
    }
  }
}
