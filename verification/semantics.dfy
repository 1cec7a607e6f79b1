/**
 * parseInstruction on the machine value: one opcode is decoded
 * (Opcode.Decode) and its handler computes the next machine, or the error
 * the interpreter reports. Each handler follows the statement order of the
 * interpreter, so the flag register VF comes out exactly as it does when x
 * or y is 0xF; the clean arithmetic reading is stated for x, y other than VF.
 *
 * Outside inputs are parameters: `rnd` is the random byte of Cxkk and `key`
 * the input-map value of the event Fx0A polls (None when that event is not
 * a mapped key).
 */
module Semantics {
  import opened Bytes
  import opened Wrappers
  import opened State
  import CallStack
  import Opcode
  import Sprite

  /** The errors parseInstruction returns, without their message text. */
  datatype Fault =
    | Unknown(op: u16)                          // no handler for the opcode
    | StackFault(error: CallStack.StackError)   // CALL on a full stack, RET on an empty one
    | Stuck                                     // Fx0A polled no mapped key and spins forever

  /** Registers other than x and VF keep their values. */
  predicate OthersKept(m: Machine, r: Machine, x: nibble)
    requires Valid(m) && Valid(r)
  {
    forall k :: 0 <= k < REGISTER_COUNT && k != x && k != VF ==> r.regs[k] == m.regs[k]
  }

  // ---------------------------------------------------------------- class 0

  /** 00E0 CLS: every pixel goes off; nothing else but the PC changes. */
  function ClearScreen(m: Machine): (r: Machine)
    requires Valid(m)
    ensures Valid(r)
    ensures forall p :: 0 <= p < |r.display| ==> !r.display[p]
    ensures r == Advance(m, false).(display := r.display)
  {
    Advance(m.(display := Blank()), false)
  }

  /** 00EE RET: pop the return address, jump to it, then step past the CALL that pushed it. */
  function Return(m: Machine): (r: Result<Machine, Fault>)
    requires Valid(m)
    ensures r.Failure? <==> CallStack.Contents(m.stack) == []
    ensures r.Failure? ==> r.error == StackFault(CallStack.Underflow)
    ensures r.Success? ==> var top := |CallStack.Contents(m.stack)| - 1;
      && Valid(r.value)
      && r.value.pc == Add16(CallStack.Contents(m.stack)[top], 2)
      && CallStack.Contents(r.value.stack) == CallStack.Contents(m.stack)[..top]
      && r.value == m.(pc := r.value.pc, stack := r.value.stack)
  {
    match CallStack.PopFrame(m.stack)
    case Failure(e) => Failure(StackFault(e))
    case Success((addr, f)) => Success(Advance(m.(pc := addr, stack := f), false))
  }

  /** 0000 and 0A00: the halt signal is raised and the PC still advances. */
  function Halt(m: Machine): (r: Machine)
    requires Valid(m)
    ensures Valid(r) && r.halted
    ensures r == Advance(m, false).(halted := true)
  {
    Advance(m.(halted := true), false)
  }

  // ------------------------------------------------------ jumps and calls

  /** 1nnn JP: the PC becomes nnn, without the usual advance. */
  function Jump(m: Machine, nnn: addr12): (r: Machine)
    requires Valid(m)
    ensures Valid(r) && r.pc == nnn && r == m.(pc := nnn)
  {
    m.(pc := nnn)
  }

  /** 2nnn CALL: push the current PC, then jump to nnn; a full stack is an error. */
  function CallSub(m: Machine, nnn: addr12): (r: Result<Machine, Fault>)
    requires Valid(m)
    ensures r.Failure? <==> m.stack.index == |m.stack.slots|
    ensures r.Failure? ==> r.error == StackFault(CallStack.Overflow)
    ensures r.Success? ==>
      && Valid(r.value)
      && r.value.pc == nnn
      && CallStack.Contents(r.value.stack) == CallStack.Contents(m.stack) + [m.pc]
      && r.value == m.(pc := nnn, stack := r.value.stack)
  {
    match CallStack.PushFrame(m.stack, m.pc)
    case Failure(e) => Failure(StackFault(e))
    case Success(f) => Success(m.(pc := nnn, stack := f))
  }

  /** Bnnn JP V0: the PC becomes nnn + V0 (at most 0x10FE, so no uint16 wrap), without the usual advance. */
  function JumpOffset(m: Machine, nnn: addr12): (r: Machine)
    requires Valid(m)
    ensures Valid(r) && r.pc == nnn + m.regs[0] && r == m.(pc := r.pc)
  {
    m.(pc := Add16(nnn, m.regs[0]))
  }

  // ------------------------------------------------------------------ skips

  /** 3xkk SE: skip the next instruction exactly when Vx == kk; only the PC changes. */
  function SkipEqualByte(m: Machine, x: nibble, kk: byte): (r: Machine)
    requires Valid(m)
    ensures Valid(r) && r == m.(pc := r.pc)
    ensures r.pc == Add16(m.pc, 4) <==> m.regs[x] == kk
    ensures r.pc == Add16(m.pc, 2) <==> m.regs[x] != kk
  {
    Advance(m, m.regs[x] == kk)
  }

  /** 4xkk SNE: skip exactly when Vx != kk; only the PC changes. */
  function SkipNotEqualByte(m: Machine, x: nibble, kk: byte): (r: Machine)
    requires Valid(m)
    ensures Valid(r) && r == m.(pc := r.pc)
    ensures r.pc == Add16(m.pc, 4) <==> m.regs[x] != kk
    ensures r.pc == Add16(m.pc, 2) <==> m.regs[x] == kk
  {
    Advance(m, m.regs[x] != kk)
  }

  /** 5xy0 SE: skip exactly when Vx == Vy; only the PC changes. */
  function SkipEqualRegs(m: Machine, x: nibble, y: nibble): (r: Machine)
    requires Valid(m)
    ensures Valid(r) && r == m.(pc := r.pc)
    ensures r.pc == Add16(m.pc, 4) <==> m.regs[x] == m.regs[y]
    ensures r.pc == Add16(m.pc, 2) <==> m.regs[x] != m.regs[y]
  {
    Advance(m, m.regs[x] == m.regs[y])
  }

  /** 9xy0 SNE: skip exactly when Vx != Vy; only the PC changes. */
  function SkipNotEqualRegs(m: Machine, x: nibble, y: nibble): (r: Machine)
    requires Valid(m)
    ensures Valid(r) && r == m.(pc := r.pc)
    ensures r.pc == Add16(m.pc, 4) <==> m.regs[x] != m.regs[y]
    ensures r.pc == Add16(m.pc, 2) <==> m.regs[x] == m.regs[y]
  {
    Advance(m, m.regs[x] != m.regs[y])
  }

  /** Ex9E SKP: skip exactly when key Vx is down; the key is released either way. */
  function SkipPressed(m: Machine, x: nibble): (r: Machine)
    requires Valid(m) && m.regs[x] < KEY_COUNT
    ensures Valid(r)
    ensures r.pc == Add16(m.pc, 4) <==> m.keys[m.regs[x]]
    ensures r.pc == Add16(m.pc, 2) <==> !m.keys[m.regs[x]]
    ensures r.keys == m.keys[m.regs[x] := false]
    ensures r == m.(pc := r.pc, keys := r.keys)
  {
    Advance(m.(keys := m.keys[m.regs[x] := false]), m.keys[m.regs[x]])
  }

  /** ExA1 SKNP: skip exactly when key Vx is up; the key is released either way. */
  function SkipNotPressed(m: Machine, x: nibble): (r: Machine)
    requires Valid(m) && m.regs[x] < KEY_COUNT
    ensures Valid(r)
    ensures r.pc == Add16(m.pc, 4) <==> !m.keys[m.regs[x]]
    ensures r.pc == Add16(m.pc, 2) <==> m.keys[m.regs[x]]
    ensures r.keys == m.keys[m.regs[x] := false]
    ensures r == m.(pc := r.pc, keys := r.keys)
  {
    Advance(m.(keys := m.keys[m.regs[x] := false]), !m.keys[m.regs[x]])
  }

  // ------------------------------------------------------ register writes

  /** 6xkk LD: Vx = kk. */
  function LoadByte(m: Machine, x: nibble, kk: byte): (r: Machine)
    requires Valid(m)
    ensures Valid(r) && r.regs[x] == kk
    ensures forall k :: 0 <= k < REGISTER_COUNT && k != x ==> r.regs[k] == m.regs[k]
    ensures r == Advance(m, false).(regs := r.regs)
  {
    Advance(m.(regs := m.regs[x := kk]), false)
  }

  /** 7xkk ADD: Vx = Vx + kk mod 256; no flag is set, so VF changes only when it is the target. */
  function AddByte(m: Machine, x: nibble, kk: byte): (r: Machine)
    requires Valid(m)
    ensures Valid(r) && r.regs[x] == (m.regs[x] as int + kk) % 0x100
    ensures forall k :: 0 <= k < REGISTER_COUNT && k != x ==> r.regs[k] == m.regs[k]
    ensures r == Advance(m, false).(regs := r.regs)
  {
    Advance(m.(regs := m.regs[x := Add8(m.regs[x], kk)]), false)
  }

  /** 8xy0 LD: Vx = Vy. */
  function Copy(m: Machine, x: nibble, y: nibble): (r: Machine)
    requires Valid(m)
    ensures Valid(r) && r.regs[x] == m.regs[y]
    ensures forall k :: 0 <= k < REGISTER_COUNT && k != x ==> r.regs[k] == m.regs[k]
    ensures r == Advance(m, false).(regs := r.regs)
  {
    Advance(m.(regs := m.regs[x := m.regs[y]]), false)
  }

  /** 8xy1 OR: each bit of Vx is set when it is set in Vx or in Vy. */
  function OrRegs(m: Machine, x: nibble, y: nibble): (r: Machine)
    requires Valid(m)
    ensures Valid(r)
    ensures forall c :: 0 <= c < 8 ==> Bit(r.regs[x], c) == (Bit(m.regs[x], c) || Bit(m.regs[y], c))
    ensures forall k :: 0 <= k < REGISTER_COUNT && k != x ==> r.regs[k] == m.regs[k]
    ensures r == Advance(m, false).(regs := r.regs)
  {
    Advance(m.(regs := m.regs[x := Or8(m.regs[x], m.regs[y])]), false)
  }

  /** 8xy2 AND: each bit of Vx is set when it is set in both Vx and Vy. */
  function AndRegs(m: Machine, x: nibble, y: nibble): (r: Machine)
    requires Valid(m)
    ensures Valid(r)
    ensures forall c :: 0 <= c < 8 ==> Bit(r.regs[x], c) == (Bit(m.regs[x], c) && Bit(m.regs[y], c))
    ensures forall k :: 0 <= k < REGISTER_COUNT && k != x ==> r.regs[k] == m.regs[k]
    ensures r == Advance(m, false).(regs := r.regs)
  {
    Advance(m.(regs := m.regs[x := And8(m.regs[x], m.regs[y])]), false)
  }

  /** 8xy3 XOR: each bit of Vx is set when exactly one of Vx and Vy has it. */
  function XorRegs(m: Machine, x: nibble, y: nibble): (r: Machine)
    requires Valid(m)
    ensures Valid(r)
    ensures forall c :: 0 <= c < 8 ==> Bit(r.regs[x], c) == (Bit(m.regs[x], c) != Bit(m.regs[y], c))
    ensures forall k :: 0 <= k < REGISTER_COUNT && k != x ==> r.regs[k] == m.regs[k]
    ensures r == Advance(m, false).(regs := r.regs)
  {
    Advance(m.(regs := m.regs[x := Xor8(m.regs[x], m.regs[y])]), false)
  }

  /**
   * 8xy4 ADD: the wrapped sum goes to Vx and VF reports the carry. The
   * interpreter detects the carry as `(sum > Vx) == (Vy > 0)` failing; that
   * test is exactly `Vx + Vy > 255`. VF is written first, so for x == VF the
   * sum wins.
   */
  function AddRegs(m: Machine, x: nibble, y: nibble): (r: Machine)
    requires Valid(m)
    ensures Valid(r) && OthersKept(m, r, x)
    ensures r.regs[x] == (m.regs[x] as int + m.regs[y]) % 0x100
    ensures x != VF ==> (r.regs[VF] == 1 <==> m.regs[x] as int + m.regs[y] > 0xFF)
    ensures x != VF ==> (r.regs[VF] == 0 <==> m.regs[x] as int + m.regs[y] <= 0xFF)
    ensures r == Advance(m, false).(regs := r.regs)
  {
    var vx, vy := m.regs[x], m.regs[y];
    var sum := Add8(vx, vy);
    var flag := if (sum > vx) == (vy > 0) then 0 else 1;
    Advance(m.(regs := m.regs[VF := flag][x := sum]), false)
  }

  /**
   * 8xy5 SUB: VF = 1 when Vx > Vy (strictly), then Vx = Vx - Vy mod 256,
   * reading both registers after the flag write.
   */
  function SubRegs(m: Machine, x: nibble, y: nibble): (r: Machine)
    requires Valid(m)
    ensures Valid(r) && OthersKept(m, r, x)
    ensures x != VF && y != VF ==> r.regs[x] == (m.regs[x] as int - m.regs[y]) % 0x100
    ensures x != VF ==> (r.regs[VF] == 1 <==> m.regs[x] > m.regs[y])
    ensures x != VF ==> (r.regs[VF] == 0 <==> m.regs[x] <= m.regs[y])
    ensures r == Advance(m, false).(regs := r.regs)
  {
    var regs := m.regs[VF := if m.regs[x] > m.regs[y] then 1 else 0];
    Advance(m.(regs := regs[x := Sub8(regs[x], regs[y])]), false)
  }

  /** 8xy6 SHR: VF = bit 0 of Vx, then Vx = Vx / 2 (read after the flag write); Vy is not used. */
  function ShiftRight(m: Machine, x: nibble): (r: Machine)
    requires Valid(m)
    ensures Valid(r) && OthersKept(m, r, x)
    ensures x != VF ==> r.regs[VF] == m.regs[x] % 2 && r.regs[x] == m.regs[x] / 2
    ensures x != VF ==> 2 * r.regs[x] + r.regs[VF] == m.regs[x]
    ensures r == Advance(m, false).(regs := r.regs)
  {
    var regs := m.regs[VF := m.regs[x] % 2];
    Advance(m.(regs := regs[x := regs[x] / 2]), false)
  }

  /**
   * 8xy7 SUBN: VF = 1 when Vy > Vx (strictly), then Vx = Vy - Vx mod 256,
   * reading both registers after the flag write.
   */
  function SubnRegs(m: Machine, x: nibble, y: nibble): (r: Machine)
    requires Valid(m)
    ensures Valid(r) && OthersKept(m, r, x)
    ensures x != VF && y != VF ==> r.regs[x] == (m.regs[y] as int - m.regs[x]) % 0x100
    ensures x != VF ==> (r.regs[VF] == 1 <==> m.regs[y] > m.regs[x])
    ensures x != VF ==> (r.regs[VF] == 0 <==> m.regs[y] <= m.regs[x])
    ensures r == Advance(m, false).(regs := r.regs)
  {
    var regs := m.regs[VF := if m.regs[y] > m.regs[x] then 1 else 0];
    Advance(m.(regs := regs[x := Sub8(regs[y], regs[x])]), false)
  }

  /** 8xyE SHL: VF = bit 7 of Vx, then Vx = 2 Vx mod 256 (read after the flag write); Vy is not used. */
  function ShiftLeft(m: Machine, x: nibble): (r: Machine)
    requires Valid(m)
    ensures Valid(r) && OthersKept(m, r, x)
    ensures x != VF ==> r.regs[VF] == m.regs[x] / 0x80 && r.regs[x] == 2 * (m.regs[x] as int) % 0x100
    ensures x != VF ==> 0x80 * r.regs[VF] + r.regs[x] / 2 == m.regs[x]
    ensures r == Advance(m, false).(regs := r.regs)
  {
    ShiftOut(m.regs[x]);
    var regs := m.regs[VF := m.regs[x] / 0x80];
    Advance(m.(regs := regs[x := 2 * (regs[x] as int) % 0x100]), false)
  }

  /** Shifting a byte left drops bit 7 and keeps the other seven. */
  lemma ShiftOut(a: byte)
    ensures a / 0x80 < 2 && 0x80 * (a / 0x80) + (2 * (a as int) % 0x100) / 2 == a
  {
    assert 2 * (a as int) % 0x100 == 2 * (a % 0x80);
  }

  /** Cxkk RND: Vx = kk AND a random byte, so Vx has no bit that kk lacks. */
  function Random(m: Machine, x: nibble, kk: byte, rnd: byte): (r: Machine)
    requires Valid(m)
    ensures Valid(r)
    ensures forall c :: 0 <= c < 8 ==> Bit(r.regs[x], c) == (Bit(kk, c) && Bit(rnd, c))
    ensures forall k :: 0 <= k < REGISTER_COUNT && k != x ==> r.regs[k] == m.regs[k]
    ensures r == Advance(m, false).(regs := r.regs)
  {
    Advance(m.(regs := m.regs[x := And8(kk, rnd)]), false)
  }

  // ---------------------------------------------------------- I register

  /** Annn LD I: I = nnn. */
  function SetIndex(m: Machine, nnn: addr12): (r: Machine)
    requires Valid(m)
    ensures Valid(r) && r.i == nnn && r == Advance(m, false).(i := nnn)
  {
    Advance(m.(i := nnn), false)
  }

  /** Fx1E ADD I: I = I + Vx as a uint16 (wrapping, no flag). */
  function AddIndex(m: Machine, x: nibble): (r: Machine)
    requires Valid(m)
    ensures Valid(r) && r.i == (m.i + m.regs[x]) % 0x1_0000 && r == Advance(m, false).(i := r.i)
  {
    Advance(m.(i := Add16(m.i, m.regs[x])), false)
  }

  /** Fx29 LD F: I = 5 Vx, the address of the font glyph for digit Vx. */
  function FontIndex(m: Machine, x: nibble): (r: Machine)
    requires Valid(m)
    ensures Valid(r) && r.i == 5 * (m.regs[x] as int) && r == Advance(m, false).(i := r.i)
  {
    Advance(m.(i := 5 * (m.regs[x] as int)), false)
  }

  // ------------------------------------------------------- timers and keys

  /** Fx07 LD: Vx = the delay timer. */
  function ReadDelay(m: Machine, x: nibble): (r: Machine)
    requires Valid(m)
    ensures Valid(r) && r.regs[x] == m.delay
    ensures forall k :: 0 <= k < REGISTER_COUNT && k != x ==> r.regs[k] == m.regs[k]
    ensures r == Advance(m, false).(regs := r.regs)
  {
    Advance(m.(regs := m.regs[x := m.delay]), false)
  }

  /** Fx0A LD K: Vx = the key just pressed; without a mapped key the interpreter never returns. */
  function WaitKey(m: Machine, x: nibble, key: Option<byte>): (r: Result<Machine, Fault>)
    requires Valid(m)
    ensures r.Failure? <==> key.None?
    ensures r.Failure? ==> r.error == Stuck
    ensures r.Success? ==> Valid(r.value) && r.value.regs[x] == key.value
    ensures r.Success? ==> forall k :: 0 <= k < REGISTER_COUNT && k != x ==> r.value.regs[k] == m.regs[k]
    ensures r.Success? ==> r.value == Advance(m, false).(regs := r.value.regs)
  {
    match key
    case None => Failure(Stuck)
    case Some(v) => Success(Advance(m.(regs := m.regs[x := v]), false))
  }

  /** Fx15 LD DT: the delay timer = Vx. */
  function SetDelay(m: Machine, x: nibble): (r: Machine)
    requires Valid(m)
    ensures Valid(r) && r.delay == m.regs[x] && r == Advance(m, false).(delay := r.delay)
  {
    Advance(m.(delay := m.regs[x]), false)
  }

  /** Fx18 LD ST: the sound timer = Vx. */
  function SetSound(m: Machine, x: nibble): (r: Machine)
    requires Valid(m)
    ensures Valid(r) && r.sound == m.regs[x] && r == Advance(m, false).(sound := r.sound)
  {
    Advance(m.(sound := m.regs[x]), false)
  }

  // ---------------------------------------------------------------- memory

  /**
   * Fx33 LD B: the decimal digits of Vx at I, I+1, I+2 (hundreds first);
   * no other cell changes.
   */
  function StoreBcd(m: Machine, x: nibble): (r: Machine)
    requires Valid(m) && Readable(m.i, 3)
    ensures Valid(r) && m.i + 3 <= MEMORY_SIZE
    ensures var a := m.i;
      && r.memory[a] < 10 && r.memory[a + 1] < 10 && r.memory[a + 2] < 10
      && 100 * (r.memory[a] as int) + 10 * r.memory[a + 1] + r.memory[a + 2] == m.regs[x]
    ensures forall a :: 0 <= a < MEMORY_SIZE && !(m.i <= a < m.i + 3) ==> r.memory[a] == m.memory[a]
    ensures r == Advance(m, false).(memory := r.memory)
  {
    ReadableBlock(m.i, 3);
    var v := m.regs[x];
    DecimalDigits(v);
    var mem := m.memory[m.i := v / 100][m.i + 1 := (v / 10) % 10][m.i + 2 := (v % 100) % 10];
    Advance(m.(memory := mem), false)
  }

  /** The three decimal digits Fx33 writes are digits and spell the byte. */
  lemma DecimalDigits(v: byte)
    ensures v / 100 < 10 && (v / 10) % 10 < 10 && (v % 100) % 10 < 10
    ensures 100 * (v / 100) + 10 * ((v / 10) % 10) + (v % 100) % 10 == v
  {
    assert v / 10 == 10 * (v / 100) + (v / 10) % 10;
    assert (v % 100) % 10 == v % 10;
  }

  /** Fx55 LD [I]: V0..Vx are copied to memory[I..I+x]; no other cell and not I changes. */
  function StoreRegisters(m: Machine, x: nibble): (r: Machine)
    requires Valid(m) && Readable(m.i, x + 1)
    ensures Valid(r) && m.i + x < MEMORY_SIZE
    ensures forall k :: 0 <= k <= x ==> r.memory[m.i + k] == m.regs[k]
    ensures forall a :: 0 <= a < MEMORY_SIZE && !(m.i <= a <= m.i + x) ==> r.memory[a] == m.memory[a]
    ensures r == Advance(m, false).(memory := r.memory)
  {
    ReadableBlock(m.i, x + 1);
    Advance(m.(memory := Stored(m.memory, m.regs, m.i, x + 1)), false)
  }

  /** Memory with cells base..base+count-1 holding regs[0..count-1]. */
  function Stored(memory: seq<byte>, regs: seq<byte>, base: nat, count: nat): (s: seq<byte>)
    requires count <= |regs| && base + count <= |memory|
    ensures |s| == |memory|
    ensures forall a :: 0 <= a < |s| ==> s[a] == if base <= a < base + count then regs[a - base] else memory[a]
  {
    seq(|memory|, a requires 0 <= a < |memory| => if base <= a < base + count then regs[a - base] else memory[a])
  }

  /** Fx65 LD Vx, [I]: memory[I..I+x] is copied to V0..Vx; no other register and not I changes. */
  function LoadRegisters(m: Machine, x: nibble): (r: Machine)
    requires Valid(m) && Readable(m.i, x + 1)
    ensures Valid(r) && m.i + x < MEMORY_SIZE
    ensures forall k :: 0 <= k <= x ==> r.regs[k] == m.memory[m.i + k]
    ensures forall k :: x < k < REGISTER_COUNT ==> r.regs[k] == m.regs[k]
    ensures r == Advance(m, false).(regs := r.regs)
  {
    ReadableBlock(m.i, x + 1);
    Advance(m.(regs := Loaded(m.regs, m.memory, m.i, x + 1)), false)
  }

  /** Registers with V0..V(count-1) holding memory[base..base+count-1]. */
  function Loaded(regs: seq<byte>, memory: seq<byte>, base: nat, count: nat): (s: seq<byte>)
    requires count <= |regs| && base + count <= |memory|
    ensures |s| == |regs|
    ensures forall k :: 0 <= k < |s| ==> s[k] == if k < count then memory[base + k] else regs[k]
  {
    seq(|regs|, k requires 0 <= k < |regs| => if k < count then memory[base + k] else regs[k])
  }

  // -------------------------------------------------------------- dispatch

  /** The instruction's memory and key accesses stay in range (the interpreter panics otherwise). */
  predicate Safe(m: Machine, ins: Opcode.Instr)
    requires Valid(m)
  {
    match ins
    case Drw(_, _, n) => Readable(m.i, n)
    case Skp(x) => m.regs[x] < KEY_COUNT
    case Sknp(x) => m.regs[x] < KEY_COUNT
    case LdBcd(_) => Readable(m.i, 3)
    case StoreRegs(x) => Readable(m.i, x + 1)
    case LoadRegs(x) => Readable(m.i, x + 1)
    case _ => true
  }

  /** Runs one decoded instruction. */
  function Exec(m: Machine, ins: Opcode.Instr, rnd: byte, key: Option<byte>): (r: Result<Machine, Fault>)
    requires Valid(m) && Safe(m, ins)
    ensures r.Success? ==> Valid(r.value)
    ensures r.Failure? ==> !r.error.Unknown?
  {
    match ins
    case Cls => Success(ClearScreen(m))
    case Ret => Return(m)
    case Exit => Success(Halt(m))
    case Jp(nnn) => Success(Jump(m, nnn))
    case Call(nnn) => CallSub(m, nnn)
    case SeByte(x, kk) => Success(SkipEqualByte(m, x, kk))
    case SneByte(x, kk) => Success(SkipNotEqualByte(m, x, kk))
    case SeReg(x, y) => Success(SkipEqualRegs(m, x, y))
    case LdByte(x, kk) => Success(LoadByte(m, x, kk))
    case AddByte(x, kk) => Success(AddByte(m, x, kk))
    case LdReg(x, y) => Success(Copy(m, x, y))
    case Or(x, y) => Success(OrRegs(m, x, y))
    case And(x, y) => Success(AndRegs(m, x, y))
    case Xor(x, y) => Success(XorRegs(m, x, y))
    case AddReg(x, y) => Success(AddRegs(m, x, y))
    case Sub(x, y) => Success(SubRegs(m, x, y))
    case Shr(x) => Success(ShiftRight(m, x))
    case Subn(x, y) => Success(SubnRegs(m, x, y))
    case Shl(x) => Success(ShiftLeft(m, x))
    case SneReg(x, y) => Success(SkipNotEqualRegs(m, x, y))
    case LdI(nnn) => Success(SetIndex(m, nnn))
    case JpV0(nnn) => Success(JumpOffset(m, nnn))
    case Rnd(x, kk) => Success(Random(m, x, kk, rnd))
    case Drw(x, y, n) => Success(Sprite.Draw(m, x, y, n))
    case Skp(x) => Success(SkipPressed(m, x))
    case Sknp(x) => Success(SkipNotPressed(m, x))
    case LdDelay(x) => Success(ReadDelay(m, x))
    case LdKey(x) => WaitKey(m, x, key)
    case SetDelay(x) => Success(SetDelay(m, x))
    case SetSound(x) => Success(SetSound(m, x))
    case AddI(x) => Success(AddIndex(m, x))
    case LdFont(x) => Success(FontIndex(m, x))
    case LdBcd(x) => Success(StoreBcd(m, x))
    case StoreRegs(x) => Success(StoreRegisters(m, x))
    case LoadRegs(x) => Success(LoadRegisters(m, x))
  }

  /** The opcode's instruction, if it has one, can run without an out-of-range access. */
  predicate Runs(m: Machine, op: u16)
    requires Valid(m)
  {
    Opcode.Decode(op).Some? ==> Safe(m, Opcode.Decode(op).value)
  }

  /** parseInstruction: decode, then run; an opcode without a handler is reported as Unknown. */
  function Step(m: Machine, op: u16, rnd: byte, key: Option<byte>): (r: Result<Machine, Fault>)
    requires Valid(m) && Runs(m, op)
    ensures r.Success? ==> Valid(r.value)
    ensures r == Failure(Unknown(op)) <==> Opcode.Unassigned(op)
  {
    match Opcode.Decode(op)
    case None => Failure(Unknown(op))
    case Some(ins) => Exec(m, ins, rnd, key)
  }

  // ---------------------------------------------------------------- lemmas

  /** Bits the opcode does not use (the n of 5xyN, the y of 8xy6, ...) do not change what a step does. */
  lemma StepIgnoresUnusedBits(m: Machine, op: u16, rnd: byte, key: Option<byte>)
    requires Valid(m) && Runs(m, op)
    ensures Runs(m, Opcode.Canonical(op))
    ensures Step(m, op, rnd, key) == Step(m, Opcode.Canonical(op), rnd, key)
  {
    Opcode.DecodeIgnoresUnusedBits(op);
  }

  /** A CALL followed by its RET returns to the instruction after the CALL, with the stack as before but for the zeroed slot. */
  lemma CallThenReturn(m: Machine, nnn: addr12)
    requires Valid(m) && m.stack.index < |m.stack.slots|
    ensures CallSub(m, nnn).Success?
    ensures Return(CallSub(m, nnn).value)
      == Success(Advance(m, false).(stack := CallStack.Frame(m.stack.slots[m.stack.index := 0], m.stack.index)))
  {
    CallStack.PushPopRoundTrip(m.stack, m.pc);
  }

  /** Fx55 then Fx65 with the same x and I gives back the registers. */
  lemma StoreThenLoad(m: Machine, x: nibble)
    requires Valid(m) && Readable(m.i, x + 1)
    ensures LoadRegisters(StoreRegisters(m, x), x).regs == m.regs
  {
  }

  /** Fx65 then Fx55 with the same x and I gives back the memory. */
  lemma LoadThenStore(m: Machine, x: nibble)
    requires Valid(m) && Readable(m.i, x + 1)
    ensures StoreRegisters(LoadRegisters(m, x), x).memory == m.memory
  {
  }

  /** Of SE and SNE with the same operands exactly one skips. */
  lemma SkipsComplement(m: Machine, x: nibble, kk: byte, y: nibble)
    requires Valid(m)
    ensures SkipEqualByte(m, x, kk).pc != SkipNotEqualByte(m, x, kk).pc
    ensures SkipEqualRegs(m, x, y).pc != SkipNotEqualRegs(m, x, y).pc
  {
  }
}
