/**
 * The machine state the interpreter works on, as a value: the register file
 * with VF as the flag register, 4 KiB of memory, the 32x64 display, the
 * sixteen key bits, the program counter, the I register, the two timers,
 * the return-address stack and the halt flag.
 */
module State {
  import opened Bytes
  import CallStack

  const MEMORY_SIZE: nat := 4096
  const REGISTER_COUNT: nat := 16
  const KEY_COUNT: nat := 16
  const DISPLAY_WIDTH: nat := 64
  const DISPLAY_HEIGHT: nat := 32
  /** Index of the flag register VF. */
  const VF: nibble := 0xF

  /**
   * A display of DISPLAY_HEIGHT rows of DISPLAY_WIDTH pixels, stored row by
   * row: pixel (row, col) is entry Px(row, col).
   */
  type Grid = seq<bool>

  predicate IsGrid(g: Grid)
  {
    |g| == DISPLAY_HEIGHT * DISPLAY_WIDTH
  }

  /** Position of pixel (row, col) in a Grid. */
  function Px(row: nat, col: nat): (p: nat)
    requires row < DISPLAY_HEIGHT && col < DISPLAY_WIDTH
    ensures p < DISPLAY_HEIGHT * DISPLAY_WIDTH
    ensures p / DISPLAY_WIDTH == row && p % DISPLAY_WIDTH == col
  {
    64 * row + col
  }

  /** The display with every pixel off. */
  function Blank(): (g: Grid)
    ensures IsGrid(g)
    ensures forall p :: 0 <= p < |g| ==> !g[p]
  {
    seq(DISPLAY_HEIGHT * DISPLAY_WIDTH, _ => false)
  }

  /** Every address `I + j` (a uint16 sum) for j < n lies inside memory. */
  predicate Readable(i: u16, n: nat)
  {
    forall j :: 0 <= j < n ==> Add16(i, j) < MEMORY_SIZE
  }

  /** A readable block of 1 to 4096 bytes lies inside memory without wrapping. */
  lemma ReadableBlock(i: u16, n: nat)
    requires 0 < n <= MEMORY_SIZE && Readable(i, n)
    ensures i + n <= MEMORY_SIZE
    ensures forall j :: 0 <= j < n ==> Add16(i, j) == i + j
  {
    assert Add16(i, 0) == i < MEMORY_SIZE;
    assert Add16(i, n - 1) < MEMORY_SIZE;
  }

  datatype Machine = Machine(
    regs: seq<byte>,
    memory: seq<byte>,
    display: Grid,
    keys: seq<bool>,
    pc: u16,
    i: u16,
    delay: byte,
    sound: byte,
    stack: CallStack.Frame,
    halted: bool)

  predicate Valid(m: Machine)
  {
    && |m.regs| == REGISTER_COUNT
    && |m.memory| == MEMORY_SIZE
    && IsGrid(m.display)
    && |m.keys| == KEY_COUNT
    && CallStack.Bounded(m.stack)
  }

  /** incrementPC: one instruction (2 bytes) forward, or two (4 bytes) on a skip, as uint16. */
  function Advance(m: Machine, skip: bool): (r: Machine)
    ensures r.pc == (m.pc + if skip then 4 else 2) % 0x1_0000
    ensures r == m.(pc := r.pc)
  {
    m.(pc := Add16(m.pc, if skip then 4 else 2))
  }
}
