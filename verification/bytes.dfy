/**
 * Fixed-width machine words. Go's uint8 and uint16 are modelled as bounded
 * integers; every wrap-around the interpreter relies on is written out.
 */
module Bytes {

  /** Go `uint8` / `byte`. */
  type byte = b: int | 0 <= b < 0x100

  /** Go `uint16`: program counter, I register, stack slots, opcodes. */
  type u16 = w: int | 0 <= w < 0x1_0000

  /** A 4-bit opcode field (x, y or n). */
  type nibble = v: int | 0 <= v < 0x10

  /** A 12-bit opcode address field (nnn). */
  type addr12 = a: int | 0 <= a < 0x1000

  /** Wrapping uint8 addition `a + b`. */
  function Add8(a: byte, b: byte): (r: byte)
    ensures r == a + b || r == a + b - 0x100
    ensures r == a + b <==> a + b < 0x100
  {
    (a + b) % 0x100
  }

  /** Wrapping uint8 subtraction `a - b`. */
  function Sub8(a: byte, b: byte): (r: byte)
    ensures r == a - b || r == a - b + 0x100
    ensures r == a - b <==> b <= a
  {
    (a - b) % 0x100
  }

  /** Wrapping uint16 addition. */
  function Add16(a: u16, b: nat): (r: u16)
  {
    (a + b) % 0x1_0000
  }

  /** Place value of bit `c` of a byte, counting from the most significant bit. */
  function Weight(c: nat): (w: nat)
    requires c < 8
    ensures w > 0
  {
    [0x80, 0x40, 0x20, 0x10, 0x08, 0x04, 0x02, 0x01][c]
  }

  /** Bit `c` of `b`, most significant first. */
  predicate Bit(b: byte, c: nat)
    requires c < 8
  {
    (b / Weight(c)) % 2 == 1
  }

  /** The eight bits of a byte, most significant first (the `bits` helper of the draw loop). */
  function Bits(b: byte): (r: seq<bool>)
    ensures |r| == 8
    ensures forall c :: 0 <= c < 8 ==> r[c] == Bit(b, c)
  {
    seq(8, c requires 0 <= c < 8 => Bit(b, c))
  }

  /** The byte whose bits, most significant first, are s. */
  function Join(s: seq<bool>): (b: byte)
    requires |s| == 8
    ensures forall c :: 0 <= c < 8 ==> Bit(b, c) == s[c]
  {
    var d := seq(8, c requires 0 <= c < 8 => if s[c] then 1 else 0);
    JoinBits(d);
    Sum(d)
  }

  /** The place-value sum of eight 0/1 digits, most significant first. */
  function Sum(d: seq<int>): (v: int)
    requires |d| == 8
  {
    0x80 * d[0] + 0x40 * d[1] + 0x20 * d[2] + 0x10 * d[3] + 0x08 * d[4] + 0x04 * d[5] + 0x02 * d[6] + d[7]
  }

  predicate Digits(d: seq<int>)
  {
    |d| == 8 && forall c :: 0 <= c < 8 ==> d[c] == 0 || d[c] == 1
  }

  /** Digits 0 to 3 of the sum: the digits above form the quotient. */
  lemma HighDigits(d: seq<int>)
    requires Digits(d)
    ensures (Sum(d) / 0x80) % 2 == d[0] && (Sum(d) / 0x40) % 2 == d[1]
    ensures (Sum(d) / 0x20) % 2 == d[2] && (Sum(d) / 0x10) % 2 == d[3]
  {
    var b := Sum(d);
    assert b / 0x80 == d[0];
    assert b / 0x40 == 2 * d[0] + d[1];
    assert b / 0x20 == 4 * d[0] + 2 * d[1] + d[2];
    assert b / 0x10 == 8 * d[0] + 4 * d[1] + 2 * d[2] + d[3];
  }

  /** Digits 4 to 7 of the sum. */
  lemma LowDigits(d: seq<int>)
    requires Digits(d)
    ensures (Sum(d) / 0x08) % 2 == d[4] && (Sum(d) / 0x04) % 2 == d[5]
    ensures (Sum(d) / 0x02) % 2 == d[6] && Sum(d) % 2 == d[7]
  {
    var b := Sum(d);
    assert b / 0x08 == 0x10 * d[0] + 8 * d[1] + 4 * d[2] + 2 * d[3] + d[4];
    assert b / 0x04 == 0x20 * d[0] + 0x10 * d[1] + 8 * d[2] + 4 * d[3] + 2 * d[4] + d[5];
    assert b / 0x02 == 0x40 * d[0] + 0x20 * d[1] + 0x10 * d[2] + 8 * d[3] + 4 * d[4] + 2 * d[5] + d[6];
  }

  /** Bit c of the place-value sum is digit c. */
  lemma {:induction false} JoinBits(d: seq<int>)
    requires Digits(d)
    ensures 0 <= Sum(d) < 0x100
    ensures forall c :: 0 <= c < 8 ==> (Sum(d) / Weight(c)) % 2 == d[c]
  {
    HighDigits(d);
    LowDigits(d);
    forall c | 0 <= c < 8
      ensures (Sum(d) / Weight(c)) % 2 == d[c]
    {
      var w := Weight(c);
      if c == 0 { assert w == 0x80; }
      else if c == 1 { assert w == 0x40; }
      else if c == 2 { assert w == 0x20; }
      else if c == 3 { assert w == 0x10; }
      else if c == 4 { assert w == 0x08; }
      else if c == 5 { assert w == 0x04; }
      else if c == 6 { assert w == 0x02; }
      else { assert w == 0x01; }
    }
  }

  /** Bitwise `a | b` on bytes. */
  function Or8(a: byte, b: byte): (r: byte)
    ensures forall c :: 0 <= c < 8 ==> Bit(r, c) == (Bit(a, c) || Bit(b, c))
  {
    Join(seq(8, c requires 0 <= c < 8 => Bit(a, c) || Bit(b, c)))
  }

  /** Bitwise `a & b` on bytes. */
  function And8(a: byte, b: byte): (r: byte)
    ensures forall c :: 0 <= c < 8 ==> Bit(r, c) == (Bit(a, c) && Bit(b, c))
  {
    Join(seq(8, c requires 0 <= c < 8 => Bit(a, c) && Bit(b, c)))
  }

  /** Bitwise `a ^ b` on bytes. */
  function Xor8(a: byte, b: byte): (r: byte)
    ensures forall c :: 0 <= c < 8 ==> Bit(r, c) == (Bit(a, c) != Bit(b, c))
  {
    Join(seq(8, c requires 0 <= c < 8 => Bit(a, c) != Bit(b, c)))
  }

  /** The number a most-significant-first bit string stands for. */
  function FromBits(s: seq<bool>): (v: nat)
  {
    if s == [] then 0 else 2 * FromBits(s[..|s| - 1]) + (if s[|s| - 1] then 1 else 0)
  }

  /** `Bits` loses nothing: reading its eight bits back gives the byte. */
  lemma BitsRoundTrip(b: byte)
    ensures FromBits(Bits(b)) == b
  {
    var s := Bits(b);
    var d := seq(8, c requires 0 <= c < 8 => if s[c] then 1 else 0);
    FromBitsSum(s, d);
    SumOfBits(b, d);
  }

  /** Reading eight bits as a number is their place-value sum. */
  lemma FromBitsSum(s: seq<bool>, d: seq<int>)
    requires |s| == 8 && |d| == 8 && forall c :: 0 <= c < 8 ==> d[c] == if s[c] then 1 else 0
    ensures FromBits(s) == Sum(d)
  {
    assert s[..0] == [];
    assert FromBits(s[..1]) == d[0] by { assert s[..1][..0] == s[..0]; }
    assert FromBits(s[..2]) == 2 * d[0] + d[1] by { assert s[..2][..1] == s[..1]; }
    assert FromBits(s[..3]) == 4 * d[0] + 2 * d[1] + d[2] by { assert s[..3][..2] == s[..2]; }
    assert FromBits(s[..4]) == 8 * d[0] + 4 * d[1] + 2 * d[2] + d[3] by { assert s[..4][..3] == s[..3]; }
    assert FromBits(s[..5]) == 0x10 * d[0] + 8 * d[1] + 4 * d[2] + 2 * d[3] + d[4] by { assert s[..5][..4] == s[..4]; }
    assert FromBits(s[..6]) == 0x20 * d[0] + 0x10 * d[1] + 8 * d[2] + 4 * d[3] + 2 * d[4] + d[5]
      by { assert s[..6][..5] == s[..5]; }
    assert FromBits(s[..7]) == 0x40 * d[0] + 0x20 * d[1] + 0x10 * d[2] + 8 * d[3] + 4 * d[4] + 2 * d[5] + d[6]
      by { assert s[..7][..6] == s[..6]; }
    assert s[..8][..7] == s[..7];
    assert s[..8] == s;
  }

  /** A byte is the place-value sum of its bits. */
  lemma SumOfBits(b: byte, d: seq<int>)
    requires |d| == 8 && forall c :: 0 <= c < 8 ==> d[c] == (b / Weight(c)) % 2
    ensures Sum(d) == b
  {
    var q := [b / 0x80, b / 0x40, b / 0x20, b / 0x10, b / 0x08, b / 0x04, b / 0x02, b];
    forall c | 0 <= c < 8
      ensures d[c] == q[c] % 2
    {
      var w := Weight(c);
      if c == 0 { assert w == 0x80; }
      else if c == 1 { assert w == 0x40; }
      else if c == 2 { assert w == 0x20; }
      else if c == 3 { assert w == 0x10; }
      else if c == 4 { assert w == 0x08; }
      else if c == 5 { assert w == 0x04; }
      else if c == 6 { assert w == 0x02; }
      else { assert w == 0x01; }
    }
    assert q[0] == d[0];
    assert q[1] == 2 * q[0] + d[1] by { assert q[0] == q[1] / 2; }
    assert q[2] == 2 * q[1] + d[2] by { assert q[1] == q[2] / 2; }
    assert q[3] == 2 * q[2] + d[3] by { assert q[2] == q[3] / 2; }
    assert q[4] == 2 * q[3] + d[4] by { assert q[3] == q[4] / 2; }
    assert q[5] == 2 * q[4] + d[5] by { assert q[4] == q[5] / 2; }
    assert q[6] == 2 * q[5] + d[6] by { assert q[5] == q[6] / 2; }
    assert q[7] == 2 * q[6] + d[7] by { assert q[6] == q[7] / 2; }
  }
}
