/**
 * DRW Vx, Vy, n: XOR-drawing an n-byte sprite read from memory[I..] onto
 * the display, wrapping both axes, with VF reporting a collision.
 *
 * The draw loop visits sprite rows r (yOffset) and, in each, bits c
 * (xOffset, most significant first). Flag, Row, Col and Screen describe the
 * loop on reaching position (r, c), reading the registers as the loop does
 * (Vy when a row starts, Vx at every pixel, both possibly VF), so they are
 * exact when x or y is VF. For x and y other than VF the result is the
 * closed form XorSprite / Collides (DrawXor).
 */
module Sprite {
  import opened Bytes
  import opened State

  /** A screen coordinate wrapped as the draw loop does: `if v >= dim { v %= dim }`. */
  function Wrap(v: nat, dim: nat): (r: nat)
    requires dim > 0
    ensures r < dim && r == v % dim
  {
    if v >= dim then v % dim else v
  }

  /** What one DRW works on: the registers and display it starts from, the sprite rows, x and y. */
  datatype Setup = Setup(regs: seq<byte>, d: Grid, rows: seq<byte>, x: nibble, y: nibble)

  predicate Ok(j: Setup)
  {
    |j.regs| == REGISTER_COUNT && IsGrid(j.d) && |j.rows| < 0x10
  }

  /** Register r as the loop reads it while VF holds f (the loop writes no other register). */
  function Reg(j: Setup, f: byte, r: nibble): (v: byte)
    requires Ok(j)
  {
    if r == VF then f else j.regs[r]
  }

  /** Whether bit c of sprite row r is set: the pixel drawn at yOffset r, xOffset c. */
  predicate Ink(j: Setup, r: nat, c: nat)
    requires Ok(j) && r < |j.rows| && c < 8
  {
    Bit(j.rows[r], c)
  }

  /** Loop position (r, c) is reached: 0 <= r <= n, and c <= 8 with c == 0 once r == n. */
  predicate At(j: Setup, r: nat, c: nat)
  {
    (r < |j.rows| && c <= 8) || (r == |j.rows| && c == 0)
  }

  /**
   * VF when the loop reaches yOffset r, xOffset c: cleared before the loop,
   * set by a set bit that meets a lit cell.
   */
  function Flag(j: Setup, r: nat, c: nat): (f: byte)
    requires Ok(j) && At(j, r, c)
    ensures f == 0 || f == 1
    decreases 9 * r + c, 0
  {
    if c == 0 then (if r == 0 then 0 else Flag(j, r - 1, 8))
    else if Ink(j, r, c - 1) && Screen(j, r, c - 1, Row(j, r), Col(j, r, c - 1)) then 1
    else Flag(j, r, c - 1)
  }

  /** Screen row of sprite row r: Vy, read when the row starts, plus r, wrapped. */
  function Row(j: Setup, r: nat): (R: nat)
    requires Ok(j) && r < |j.rows|
    ensures R < DISPLAY_HEIGHT
    decreases 9 * r, 2
  {
    Wrap(Reg(j, Flag(j, r, 0), j.y) + r, DISPLAY_HEIGHT)
  }

  /** Screen column of bit c: Vx, read at this pixel, plus c, wrapped. */
  function Col(j: Setup, r: nat, c: nat): (C: nat)
    requires Ok(j) && r < |j.rows| && c < 8
    ensures C < DISPLAY_WIDTH
    decreases 9 * r + c, 2
  {
    Wrap(Reg(j, Flag(j, r, c), j.x) + c, DISPLAY_WIDTH)
  }

  /** Display cell (R, C) when the loop reaches yOffset r, xOffset c: each pixel XORs its bit into its cell. */
  predicate Screen(j: Setup, r: nat, c: nat, R: nat, C: nat)
    requires Ok(j) && At(j, r, c) && R < DISPLAY_HEIGHT && C < DISPLAY_WIDTH
    decreases 9 * r + c, 1
  {
    if c == 0 then (if r == 0 then j.d[Px(R, C)] else Screen(j, r - 1, 8, R, C))
    else
      var before := Screen(j, r, c - 1, R, C);
      if R == Row(j, r) && C == Col(j, r, c - 1) then before != Ink(j, r, c - 1) else before
  }

  /** One pixel of the loop: VF rises when the bit meets a lit cell; only cell (Row, Col) changes. */
  lemma PixelStep(j: Setup, r: nat, c: nat)
    requires Ok(j) && r < |j.rows| && c < 8
    ensures Flag(j, r, c + 1) == if Ink(j, r, c) && Screen(j, r, c, Row(j, r), Col(j, r, c)) then 1 else Flag(j, r, c)
    ensures forall R, C :: 0 <= R < DISPLAY_HEIGHT && 0 <= C < DISPLAY_WIDTH ==>
      Screen(j, r, c + 1, R, C) ==
        if R == Row(j, r) && C == Col(j, r, c) then Screen(j, r, c, R, C) != Ink(j, r, c) else Screen(j, r, c, R, C)
  {
  }

  /** Moving to the next sprite row changes nothing. */
  lemma RowStep(j: Setup, r: nat)
    requires Ok(j) && r < |j.rows|
    ensures Flag(j, r + 1, 0) == Flag(j, r, 8)
    ensures forall R, C :: 0 <= R < DISPLAY_HEIGHT && 0 <= C < DISPLAY_WIDTH ==> Screen(j, r + 1, 0, R, C) == Screen(j, r, 8, R, C)
  {
  }

  /** The display when the loop ends. */
  function Drawn(j: Setup): (g: Grid)
    requires Ok(j)
    ensures IsGrid(g)
    ensures forall p :: 0 <= p < |g| ==> g[p] == Screen(j, |j.rows|, 0, p / DISPLAY_WIDTH, p % DISPLAY_WIDTH)
  {
    seq(DISPLAY_HEIGHT * DISPLAY_WIDTH, p requires 0 <= p < DISPLAY_HEIGHT * DISPLAY_WIDTH =>
      Screen(j, |j.rows|, 0, p / DISPLAY_WIDTH, p % DISPLAY_WIDTH))
  }

  /** The sprite: the n bytes at I, I+1, ... (uint16 sums). */
  function SpriteAt(m: Machine, n: nat): (s: seq<byte>)
    requires Valid(m) && Readable(m.i, n)
    ensures |s| == n && forall j :: 0 <= j < n ==> s[j] == m.memory[Add16(m.i, j)]
  {
    seq(n, j requires 0 <= j < n => m.memory[Add16(m.i, j)])
  }

  /** DRW Vx, Vy, n: VF cleared, the n sprite rows drawn, PC advanced. */
  function Draw(m: Machine, x: nibble, y: nibble, n: nibble): (r: Machine)
    requires Valid(m) && Readable(m.i, n)
    ensures Valid(r) && r == Advance(m, false).(regs := m.regs[VF := r.regs[VF]], display := r.display)
  {
    var j := Setup(m.regs, m.display, SpriteAt(m, n), x, y);
    Advance(m.(regs := m.regs[VF := Flag(j, n, 0)], display := Drawn(j)), false)
  }

  /** Whether a set sprite bit lands on pixel (R, C): sprite row (R - vy) mod 32, bit (C - vx) mod 64. */
  predicate Covers(sprite: seq<byte>, vx: nat, vy: nat, R: int, C: int)
  {
    var r := (R - vy) % DISPLAY_HEIGHT;
    var c := (C - vx) % DISPLAY_WIDTH;
    r < |sprite| && c < 8 && Bit(sprite[r], c)
  }

  /** `d` with every pixel that a set sprite bit lands on flipped. */
  function XorSprite(d: Grid, sprite: seq<byte>, vx: nat, vy: nat): (g: Grid)
    requires IsGrid(d)
    ensures IsGrid(g)
  {
    seq(|d|, p requires 0 <= p < |d| =>
      d[p] != Covers(sprite, vx, vy, p / DISPLAY_WIDTH, p % DISPLAY_WIDTH))
  }

  /** Bit c of sprite row r is set and lands on a lit cell of d. */
  predicate Hit(d: Grid, sprite: seq<byte>, vx: nat, vy: nat, r: nat, c: nat)
    requires IsGrid(d) && r < |sprite| && c < 8
  {
    Bit(sprite[r], c) && d[Px((vy + r) % DISPLAY_HEIGHT, (vx + c) % DISPLAY_WIDTH)]
  }

  /** Some set bit of the sprite lands on a lit cell of d. */
  predicate Collides(d: Grid, sprite: seq<byte>, vx: nat, vy: nat)
    requires IsGrid(d)
  {
    exists r, c :: 0 <= r < |sprite| && 0 <= c < 8 && Hit(d, sprite, vx, vy, r, c)
  }

  lemma RowOffset(v: nat, r: nat, R: nat)
    requires r < DISPLAY_HEIGHT && R < DISPLAY_HEIGHT
    ensures R == (v + r) % DISPLAY_HEIGHT <==> (R - v) % DISPLAY_HEIGHT == r
  {
  }

  lemma ColOffset(v: nat, c: nat, C: nat)
    requires c < DISPLAY_WIDTH && C < DISPLAY_WIDTH
    ensures C == (v + c) % DISPLAY_WIDTH <==> (C - v) % DISPLAY_WIDTH == c
  {
  }

  /** For x and y other than VF: whether a set bit drawn before loop position (r, c) lands on cell (R, C). */
  predicate CoveredBefore(j: Setup, r: nat, c: nat, R: int, C: int)
    requires Ok(j)
  {
    var row, col := (R - j.regs[j.y]) % DISPLAY_HEIGHT, (C - j.regs[j.x]) % DISPLAY_WIDTH;
    col < 8 && row < |j.rows| && (row < r || (row == r && col < c)) && Bit(j.rows[row], col)
  }

  /** For x and y other than VF, each cell is its starting value XOR whether a set bit drawn so far covered it. */
  lemma {:induction false} ScreenXor(j: Setup, r: nat, c: nat, R: nat, C: nat)
    requires Ok(j) && j.x != VF && j.y != VF && At(j, r, c) && R < DISPLAY_HEIGHT && C < DISPLAY_WIDTH
    ensures Screen(j, r, c, R, C) == (j.d[Px(R, C)] != CoveredBefore(j, r, c, R, C))
    decreases 9 * r + c
  {
    if c == 0 {
      if r > 0 {
        ScreenXor(j, r - 1, 8, R, C);
      }
    } else {
      ScreenXor(j, r, c - 1, R, C);
      ScreenStep(j, r, c, R, C);
      CoveredStep(j, r, c, R, C);
    }
  }

  /** For x and y other than VF, one pixel of the loop flips cell (R, C) exactly when it lands there with its bit set. */
  lemma ScreenStep(j: Setup, r: nat, c: nat, R: nat, C: nat)
    requires Ok(j) && j.x != VF && j.y != VF && r < |j.rows| && 0 < c <= 8 && R < DISPLAY_HEIGHT && C < DISPLAY_WIDTH
    ensures Screen(j, r, c, R, C) ==
      (Screen(j, r, c - 1, R, C) != (R == (j.regs[j.y] + r) % DISPLAY_HEIGHT && C == (j.regs[j.x] + (c - 1)) % DISPLAY_WIDTH && Ink(j, r, c - 1)))
  {
    RowFixed(j, r);
    ColFixed(j, r, c - 1);
  }

  /** Moving one pixel on adds exactly the cell that pixel lands on, when its bit is set. */
  lemma CoveredStep(j: Setup, r: nat, c: nat, R: nat, C: nat)
    requires Ok(j) && r < |j.rows| && 0 < c <= 8 && R < DISPLAY_HEIGHT && C < DISPLAY_WIDTH
    ensures CoveredBefore(j, r, c, R, C) ==
      (CoveredBefore(j, r, c - 1, R, C) != (R == (j.regs[j.y] + r) % DISPLAY_HEIGHT && C == (j.regs[j.x] + (c - 1)) % DISPLAY_WIDTH && Ink(j, r, c - 1)))
  {
    RowOffset(j.regs[j.y], r, R);
    ColOffset(j.regs[j.x], c - 1, C);
  }

  /** For y other than VF, sprite row r lands on screen row (Vy + r) mod 32. */
  lemma RowFixed(j: Setup, r: nat)
    requires Ok(j) && j.y != VF && r < |j.rows|
    ensures Row(j, r) == (j.regs[j.y] + r) % DISPLAY_HEIGHT
  {
  }

  /** For x other than VF, bit c lands on screen column (Vx + c) mod 64. */
  lemma ColFixed(j: Setup, r: nat, c: nat)
    requires Ok(j) && j.x != VF && r < |j.rows| && c < 8
    ensures Col(j, r, c) == (j.regs[j.x] + c) % DISPLAY_WIDTH
  {
  }

  /** For x and y other than VF, a pixel finds its cell as the loop started: no earlier pixel landed there. */
  lemma FreshCell(j: Setup, r: nat, c: nat)
    requires Ok(j) && j.x != VF && j.y != VF && r < |j.rows| && c < 8
    ensures var R, C := (j.regs[j.y] + r) % DISPLAY_HEIGHT, (j.regs[j.x] + c) % DISPLAY_WIDTH;
      Screen(j, r, c, R, C) == j.d[Px(R, C)]
  {
    var R, C := (j.regs[j.y] + r) % DISPLAY_HEIGHT, (j.regs[j.x] + c) % DISPLAY_WIDTH;
    ScreenXor(j, r, c, R, C);
    RowOffset(j.regs[j.y], r, R);
    ColOffset(j.regs[j.x], c, C);
  }

  /** Bit `col` of sprite row `row` is set and lands on a cell lit at the start (x, y other than VF). */
  predicate Lit(j: Setup, row: nat, col: nat)
    requires Ok(j) && row < |j.rows| && col < 8
  {
    Hit(j.d, j.rows, j.regs[j.x], j.regs[j.y], row, col)
  }

  /** Some pixel visited before position (r, c) is a set bit over a cell lit at the start. */
  predicate LitBefore(j: Setup, r: nat, c: nat)
    requires Ok(j)
  {
    exists row, col :: 0 <= row < |j.rows| && 0 <= col < 8 && (row < r || (row == r && col < c)) && Lit(j, row, col)
  }

  lemma LitBeforeStep(j: Setup, r: nat, c: nat)
    requires Ok(j) && r < |j.rows| && 0 < c <= 8
    ensures LitBefore(j, r, c) <==> LitBefore(j, r, c - 1) || Lit(j, r, c - 1)
  {
    if LitBefore(j, r, c - 1) {
      var row, col :| 0 <= row < |j.rows| && 0 <= col < 8 && (row < r || (row == r && col < c - 1)) && Lit(j, row, col);
      assert row < r || (row == r && col < c);
    }
    if LitBefore(j, r, c) && !Lit(j, r, c - 1) {
      var row, col :| 0 <= row < |j.rows| && 0 <= col < 8 && (row < r || (row == r && col < c)) && Lit(j, row, col);
      assert row < r || (row == r && col < c - 1);
    }
  }

  lemma LitBeforeRow(j: Setup, r: nat)
    requires Ok(j) && 0 < r <= |j.rows|
    ensures LitBefore(j, r, 0) <==> LitBefore(j, r - 1, 8)
  {
    if LitBefore(j, r, 0) {
      var row, col :| 0 <= row < |j.rows| && 0 <= col < 8 && (row < r || (row == r && col < 0)) && Lit(j, row, col);
      assert row < r - 1 || (row == r - 1 && col < 8);
    }
    if LitBefore(j, r - 1, 8) {
      var row, col :| 0 <= row < |j.rows| && 0 <= col < 8 && (row < r - 1 || (row == r - 1 && col < 8)) && Lit(j, row, col);
      assert row < r;
    }
  }

  /** For x and y other than VF, VF says whether a set bit drawn so far met a cell lit at the start. */
  lemma {:induction false} FlagLit(j: Setup, r: nat, c: nat)
    requires Ok(j) && j.x != VF && j.y != VF && At(j, r, c)
    ensures Flag(j, r, c) == if LitBefore(j, r, c) then 1 else 0
    decreases 9 * r + c
  {
    if c == 0 {
      if r > 0 {
        FlagLit(j, r - 1, 8);
        LitBeforeRow(j, r);
      }
    } else {
      FlagLit(j, r, c - 1);
      RowFixed(j, r);
      ColFixed(j, r, c - 1);
      FreshCell(j, r, c - 1);
      LitBeforeStep(j, r, c);
    }
  }

  /**
   * Some set bit of the sprite meets a cell lit at the start exactly when the
   * sprite collides with the starting display (with FlagLit, for x and y
   * other than VF, this is VF at the end of the loop).
   */
  lemma LitCollides(j: Setup)
    requires Ok(j)
    ensures LitBefore(j, |j.rows|, 0) <==> Collides(j.d, j.rows, j.regs[j.x], j.regs[j.y])
  {
    if LitBefore(j, |j.rows|, 0) {
      var row, col :| 0 <= row < |j.rows| && 0 <= col < 8 && (row < |j.rows| || (row == |j.rows| && col < 0)) && Lit(j, row, col);
      assert Hit(j.d, j.rows, j.regs[j.x], j.regs[j.y], row, col);
    }
    if Collides(j.d, j.rows, j.regs[j.x], j.regs[j.y]) {
      var row, col :| 0 <= row < |j.rows| && 0 <= col < 8 && Hit(j.d, j.rows, j.regs[j.x], j.regs[j.y], row, col);
      assert Lit(j, row, col);
    }
  }

  /**
   * For x and y other than VF, DRW flips exactly the cells a set sprite bit
   * lands on, leaves every other cell and register alone, and sets VF to 1
   * exactly when a set bit lands on a lit cell.
   */
  lemma DrawXor(m: Machine, x: nibble, y: nibble, n: nibble)
    requires Valid(m) && x != VF && y != VF && Readable(m.i, n)
    ensures var s, vx, vy := SpriteAt(m, n), m.regs[x], m.regs[y]; var r := Draw(m, x, y, n);
      && r.display == XorSprite(m.display, s, vx, vy)
      && r.regs == m.regs[VF := if Collides(m.display, s, vx, vy) then 1 else 0]
  {
    var j := Setup(m.regs, m.display, SpriteAt(m, n), x, y);
    FlagLit(j, n, 0);
    LitCollides(j);
    DrawnXor(j);
  }

  /** For x and y other than VF, the loop leaves the starting display XOR the sprite. */
  lemma DrawnXor(j: Setup)
    requires Ok(j) && j.x != VF && j.y != VF
    ensures Drawn(j) == XorSprite(j.d, j.rows, j.regs[j.x], j.regs[j.y])
  {
    forall p | 0 <= p < DISPLAY_HEIGHT * DISPLAY_WIDTH
      ensures Drawn(j)[p] == XorSprite(j.d, j.rows, j.regs[j.x], j.regs[j.y])[p]
    {
      var R, C := p / DISPLAY_WIDTH, p % DISPLAY_WIDTH;
      assert Px(R, C) == p;
      DrawnCell(j, R, C);
    }
  }

  lemma DrawnCell(j: Setup, R: nat, C: nat)
    requires Ok(j) && j.x != VF && j.y != VF && R < DISPLAY_HEIGHT && C < DISPLAY_WIDTH
    ensures Drawn(j)[Px(R, C)] == XorSprite(j.d, j.rows, j.regs[j.x], j.regs[j.y])[Px(R, C)]
  {
    var p := Px(R, C);
    ScreenXor(j, |j.rows|, 0, R, C);
    assert Drawn(j)[p] == Screen(j, |j.rows|, 0, R, C);
    assert XorSprite(j.d, j.rows, j.regs[j.x], j.regs[j.y])[p] == (j.d[p] != Covers(j.rows, j.regs[j.x], j.regs[j.y], R, C));
    assert CoveredBefore(j, |j.rows|, 0, R, C) == Covers(j.rows, j.regs[j.x], j.regs[j.y], R, C);
  }

  /**
   * For x and y other than VF, cell (Vy + r mod 32, Vx + c mod 64), for r < n
   * and c < 8, ends as itself XOR bit c of memory[I + r].
   */
  lemma DrawPixel(m: Machine, x: nibble, y: nibble, n: nibble, r: nat, c: nat)
    requires Valid(m) && x != VF && y != VF && Readable(m.i, n) && r < n && c < 8
    ensures var R, C := (m.regs[y] + r) % DISPLAY_HEIGHT, (m.regs[x] + c) % DISPLAY_WIDTH;
      Draw(m, x, y, n).display[Px(R, C)] == (m.display[Px(R, C)] != Bit(m.memory[Add16(m.i, r)], c))
  {
    var R, C := (m.regs[y] + r) % DISPLAY_HEIGHT, (m.regs[x] + c) % DISPLAY_WIDTH;
    DrawXor(m, x, y, n);
    RowOffset(m.regs[y], r, R);
    ColOffset(m.regs[x], c, C);
  }

  /** XORing the same sprite in twice gives the display back. */
  lemma XorSpriteTwice(d: Grid, s: seq<byte>, vx: nat, vy: nat)
    requires IsGrid(d)
    ensures XorSprite(XorSprite(d, s, vx, vy), s, vx, vy) == d
  {
  }

  /** For x and y other than VF, drawing the same sprite twice restores the display. */
  lemma DrawTwiceRestores(m: Machine, x: nibble, y: nibble, n: nibble)
    requires Valid(m) && x != VF && y != VF && Readable(m.i, n)
    ensures Draw(Draw(m, x, y, n), x, y, n).display == m.display
  {
    var m1 := Draw(m, x, y, n);
    var s, vx, vy := SpriteAt(m, n), m.regs[x], m.regs[y];
    DrawXor(m, x, y, n);
    DrawXor(m1, x, y, n);
    assert SpriteAt(m1, n) == s;
    assert m1.regs[x] == vx && m1.regs[y] == vy;
    XorSpriteTwice(m.display, s, vx, vy);
  }

  /** Bit c of sprite row r is set and lands on a cell that is off in d, so drawing turns that cell on. */
  predicate Lights(d: Grid, sprite: seq<byte>, vx: nat, vy: nat, r: nat, c: nat)
    requires IsGrid(d) && r < |sprite| && c < 8
  {
    Bit(sprite[r], c) && !d[Px((vy + r) % DISPLAY_HEIGHT, (vx + c) % DISPLAY_WIDTH)]
  }

  /** A set bit meets a lit cell of d XOR the sprite exactly when it turned on a dark cell of d. */
  lemma HitAfterXor(d: Grid, sprite: seq<byte>, vx: nat, vy: nat, r: nat, c: nat)
    requires IsGrid(d) && r < |sprite| && r < DISPLAY_HEIGHT && c < 8
    ensures Hit(XorSprite(d, sprite, vx, vy), sprite, vx, vy, r, c) == Lights(d, sprite, vx, vy, r, c)
  {
    var R, C := (vy + r) % DISPLAY_HEIGHT, (vx + c) % DISPLAY_WIDTH;
    RowOffset(vy, r, R);
    ColOffset(vx, c, C);
    assert XorSprite(d, sprite, vx, vy)[Px(R, C)] == (d[Px(R, C)] != Covers(sprite, vx, vy, R, C));
  }

  /**
   * For x and y other than VF, drawing the same sprite a second time sets VF
   * exactly when the first draw turned some cell on.
   */
  lemma SecondDrawCollides(m: Machine, x: nibble, y: nibble, n: nibble)
    requires Valid(m) && x != VF && y != VF && Readable(m.i, n)
    ensures Draw(Draw(m, x, y, n), x, y, n).regs[VF] == 1 <==>
      exists r, c :: 0 <= r < n && 0 <= c < 8 && Lights(m.display, SpriteAt(m, n), m.regs[x], m.regs[y], r, c)
  {
    var m1 := Draw(m, x, y, n);
    var s, vx, vy := SpriteAt(m, n), m.regs[x], m.regs[y];
    DrawXor(m, x, y, n);
    DrawXor(m1, x, y, n);
    assert SpriteAt(m1, n) == s;
    assert m1.regs[x] == vx && m1.regs[y] == vy;
    var d1 := XorSprite(m.display, s, vx, vy);
    if Collides(d1, s, vx, vy) {
      var r, c :| 0 <= r < |s| && 0 <= c < 8 && Hit(d1, s, vx, vy, r, c);
      HitAfterXor(m.display, s, vx, vy, r, c);
    }
    if exists r, c :: 0 <= r < n && 0 <= c < 8 && Lights(m.display, s, vx, vy, r, c) {
      var r, c :| 0 <= r < n && 0 <= c < 8 && Lights(m.display, s, vx, vy, r, c);
      HitAfterXor(m.display, s, vx, vy, r, c);
      assert Hit(d1, s, vx, vy, r, c);
    }
  }
}
