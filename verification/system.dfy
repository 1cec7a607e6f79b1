/**
 * The interpreter as it runs: a `System` whose registers, memory, display
 * and keys are arrays updated in place, with parseInstruction and its
 * handlers as methods. Each handler is proved to leave the machine in the
 * state the matching Semantics (or Sprite) function computes from the state
 * before, so every property proved there holds of the running interpreter.
 */
module Interpreter {
  import opened Bytes
  import opened Wrappers
  import opened State
  import CallStack
  import Opcode
  import Sprite
  import Semantics

  /** The display array read row by row. */
  ghost function GridOf(a: array2<bool>): (g: Grid)
    reads a
    requires a.Length0 == DISPLAY_HEIGHT && a.Length1 == DISPLAY_WIDTH
    ensures IsGrid(g)
    ensures forall R, C :: 0 <= R < DISPLAY_HEIGHT && 0 <= C < DISPLAY_WIDTH ==> g[Px(R, C)] == a[R, C]
  {
    seq(DISPLAY_HEIGHT * DISPLAY_WIDTH, p requires 0 <= p < DISPLAY_HEIGHT * DISPLAY_WIDTH reads a =>
      a[p / DISPLAY_WIDTH, p % DISPLAY_WIDTH])
  }

  class System {
    const registers: array<byte>
    const memory: array<byte>
    const display: array2<bool>
    const keys: array<bool>
    const stack: CallStack.Stack
    /** The opcode fetched for this cycle. */
    var opcode: u16
    var programCounter: u16
    var iregister: u16
    var delayTimer: byte
    var soundTimer: byte
    /** Set once the halt signal has been sent. */
    var halted: bool

    ghost predicate Valid()
      reads this, stack
    {
      && registers.Length == REGISTER_COUNT
      && memory.Length == MEMORY_SIZE
      && display.Length0 == DISPLAY_HEIGHT && display.Length1 == DISPLAY_WIDTH
      && keys.Length == KEY_COUNT
      && registers != memory
      && stack.Valid()
    }

    /** The machine value this system holds. */
    ghost function View(): (m: Machine)
      reads this, registers, memory, display, keys, stack, stack.memory
      requires Valid()
      ensures State.Valid(m)
    {
      Machine(registers[..], memory[..], GridOf(display), keys[..],
        programCounter, iregister, delayTimer, soundTimer, stack.View(), halted)
    }

    /** A system with everything zero, the display blank and an empty stack of `stackSize` slots. */
    constructor (stackSize: nat)
      ensures Valid() && fresh(registers) && fresh(memory) && fresh(display) && fresh(keys)
      ensures fresh(stack) && fresh(stack.memory)
      ensures View() == Machine(seq(REGISTER_COUNT, _ => 0), seq(MEMORY_SIZE, _ => 0), Blank(),
        seq(KEY_COUNT, _ => false), 0, 0, 0, 0, CallStack.Empty(stackSize), false)
    {
      registers := new byte[REGISTER_COUNT](_ => 0);
      memory := new byte[MEMORY_SIZE](_ => 0);
      display := new bool[DISPLAY_HEIGHT, DISPLAY_WIDTH]((_, _) => false);
      keys := new bool[KEY_COUNT](_ => false);
      stack := new CallStack.Stack(stackSize);
      opcode, programCounter, iregister, delayTimer, soundTimer, halted := 0, 0, 0, 0, 0, false;
      new;
      assert GridOf(display) == Blank();
    }

    /** incrementPC: past this instruction, or past the next one too on a skip. */
    method IncrementPC(skip: bool)
      requires Valid()
      modifies this`programCounter
      ensures Valid() && View() == Advance(old(View()), skip)
    {
      programCounter := Add16(programCounter, if skip then 4 else 2);
    }

    /** clearDisplay: every pixel off. */
    method ClearDisplay()
      requires Valid()
      modifies display
      ensures Valid() && View() == old(View()).(display := Blank())
    {
      for row := 0 to DISPLAY_HEIGHT
        invariant forall R, C :: 0 <= R < row && 0 <= C < DISPLAY_WIDTH ==> !display[R, C]
      {
        for col := 0 to DISPLAY_WIDTH
          invariant forall R, C :: 0 <= R < row && 0 <= C < DISPLAY_WIDTH ==> !display[R, C]
          invariant forall C :: 0 <= C < col ==> !display[row, C]
        {
          display[row, col] := false;
        }
      }
      assert GridOf(display) == Blank();
    }

    // -------------------------------------------------------------- class 0

    /** 00E0 CLS */
    method ClearScreen()
      requires Valid()
      modifies display, this`programCounter
      ensures Valid() && View() == Semantics.ClearScreen(old(View()))
    {
      ClearDisplay();
      IncrementPC(false);
    }

    /** 00EE RET: on an empty stack the error is returned and nothing changes. */
    method Return() returns (err: Option<Semantics.Fault>)
      requires Valid()
      modifies stack, stack.memory, this`programCounter
      ensures Valid()
      ensures match Semantics.Return(old(View()))
        case Success(m) => err == None && View() == m
        case Failure(f) => err == Some(f) && View() == old(View())
    {
      var addr, e := stack.Pop();
      if e.Some? {
        return Some(Semantics.StackFault(e.value));
      }
      programCounter := addr;
      IncrementPC(false);
      return None;
    }

    /** 0000 and 0A00: halt. */
    method Halt()
      requires Valid()
      modifies this`halted, this`programCounter
      ensures Valid() && View() == Semantics.Halt(old(View()))
    {
      halted := true;
      IncrementPC(false);
    }

    // ---------------------------------------------------- jumps and calls

    /** 1nnn JP */
    method Jump(nnn: addr12)
      requires Valid()
      modifies this`programCounter
      ensures Valid() && View() == Semantics.Jump(old(View()), nnn)
    {
      programCounter := nnn;
    }

    /** 2nnn CALL: on a full stack the error is returned and nothing changes. */
    method CallSub(nnn: addr12) returns (err: Option<Semantics.Fault>)
      requires Valid()
      modifies stack, stack.memory, this`programCounter
      ensures Valid()
      ensures match Semantics.CallSub(old(View()), nnn)
        case Success(m) => err == None && View() == m
        case Failure(f) => err == Some(f) && View() == old(View())
    {
      var e := stack.Push(programCounter);
      if e.Some? {
        return Some(Semantics.StackFault(e.value));
      }
      programCounter := nnn;
      return None;
    }

    /** Bnnn JP V0 */
    method JumpOffset(nnn: addr12)
      requires Valid()
      modifies this`programCounter
      ensures Valid() && View() == Semantics.JumpOffset(old(View()), nnn)
    {
      programCounter := nnn + registers[0];
    }

    // ---------------------------------------------------------------- skips

    /** 3xkk SE */
    method SkipEqualByte(x: nibble, kk: byte)
      requires Valid()
      modifies this`programCounter
      ensures Valid() && View() == Semantics.SkipEqualByte(old(View()), x, kk)
    {
      if registers[x] == kk {
        IncrementPC(true);
      } else {
        IncrementPC(false);
      }
    }

    /** 4xkk SNE */
    method SkipNotEqualByte(x: nibble, kk: byte)
      requires Valid()
      modifies this`programCounter
      ensures Valid() && View() == Semantics.SkipNotEqualByte(old(View()), x, kk)
    {
      if registers[x] != kk {
        IncrementPC(true);
      } else {
        IncrementPC(false);
      }
    }

    /** 5xy0 SE */
    method SkipEqualRegs(x: nibble, y: nibble)
      requires Valid()
      modifies this`programCounter
      ensures Valid() && View() == Semantics.SkipEqualRegs(old(View()), x, y)
    {
      if registers[x] == registers[y] {
        IncrementPC(true);
      } else {
        IncrementPC(false);
      }
    }

    /** 9xy0 SNE */
    method SkipNotEqualRegs(x: nibble, y: nibble)
      requires Valid()
      modifies this`programCounter
      ensures Valid() && View() == Semantics.SkipNotEqualRegs(old(View()), x, y)
    {
      if registers[x] != registers[y] {
        IncrementPC(true);
      } else {
        IncrementPC(false);
      }
    }

    /** Ex9E SKP: a pressed key is released as it is consumed. */
    method SkipPressed(x: nibble)
      requires Valid() && registers[x] < KEY_COUNT
      modifies keys, this`programCounter
      ensures Valid() && View() == Semantics.SkipPressed(old(View()), x)
    {
      if keys[registers[x]] {
        IncrementPC(true);
        keys[registers[x]] := false;
      } else {
        IncrementPC(false);
      }
    }

    /** ExA1 SKNP: a pressed key is released as it is consumed. */
    method SkipNotPressed(x: nibble)
      requires Valid() && registers[x] < KEY_COUNT
      modifies keys, this`programCounter
      ensures Valid() && View() == Semantics.SkipNotPressed(old(View()), x)
    {
      if keys[registers[x]] {
        IncrementPC(false);
        keys[registers[x]] := false;
      } else {
        IncrementPC(true);
      }
    }

    // ---------------------------------------------------- register writes

    /** 6xkk LD */
    method LoadByte(x: nibble, kk: byte)
      requires Valid()
      modifies registers, this`programCounter
      ensures Valid() && View() == Semantics.LoadByte(old(View()), x, kk)
    {
      registers[x] := kk;
      IncrementPC(false);
    }

    /** 7xkk ADD */
    method AddByte(x: nibble, kk: byte)
      requires Valid()
      modifies registers, this`programCounter
      ensures Valid() && View() == Semantics.AddByte(old(View()), x, kk)
    {
      registers[x] := Add8(registers[x], kk);
      IncrementPC(false);
    }

    /** 8xy0 LD */
    method Copy(x: nibble, y: nibble)
      requires Valid()
      modifies registers, this`programCounter
      ensures Valid() && View() == Semantics.Copy(old(View()), x, y)
    {
      registers[x] := registers[y];
      IncrementPC(false);
    }

    /** 8xy1 OR */
    method OrRegs(x: nibble, y: nibble)
      requires Valid()
      modifies registers, this`programCounter
      ensures Valid() && View() == Semantics.OrRegs(old(View()), x, y)
    {
      registers[x] := Or8(registers[x], registers[y]);
      IncrementPC(false);
    }

    /** 8xy2 AND */
    method AndRegs(x: nibble, y: nibble)
      requires Valid()
      modifies registers, this`programCounter
      ensures Valid() && View() == Semantics.AndRegs(old(View()), x, y)
    {
      registers[x] := And8(registers[x], registers[y]);
      IncrementPC(false);
    }

    /** 8xy3 XOR */
    method XorRegs(x: nibble, y: nibble)
      requires Valid()
      modifies registers, this`programCounter
      ensures Valid() && View() == Semantics.XorRegs(old(View()), x, y)
    {
      registers[x] := Xor8(registers[x], registers[y]);
      IncrementPC(false);
    }

    /** 8xy4 ADD: the flag from the interpreter's own carry test, written before the sum. */
    method AddRegs(x: nibble, y: nibble)
      requires Valid()
      modifies registers, this`programCounter
      ensures Valid() && View() == Semantics.AddRegs(old(View()), x, y)
    {
      var sum := Add8(registers[x], registers[y]);
      if (sum > registers[x]) == (registers[y] > 0) {
        registers[VF] := 0;
      } else {
        registers[VF] := 1;
      }
      registers[x] := sum;
      IncrementPC(false);
    }

    /** 8xy5 SUB */
    method SubRegs(x: nibble, y: nibble)
      requires Valid()
      modifies registers, this`programCounter
      ensures Valid() && View() == Semantics.SubRegs(old(View()), x, y)
    {
      if registers[x] > registers[y] {
        registers[VF] := 1;
      } else {
        registers[VF] := 0;
      }
      registers[x] := Sub8(registers[x], registers[y]);
      IncrementPC(false);
    }

    /** 8xy6 SHR */
    method ShiftRight(x: nibble)
      requires Valid()
      modifies registers, this`programCounter
      ensures Valid() && View() == Semantics.ShiftRight(old(View()), x)
    {
      registers[VF] := registers[x] % 2;
      registers[x] := registers[x] / 2;
      IncrementPC(false);
    }

    /** 8xy7 SUBN */
    method SubnRegs(x: nibble, y: nibble)
      requires Valid()
      modifies registers, this`programCounter
      ensures Valid() && View() == Semantics.SubnRegs(old(View()), x, y)
    {
      if registers[y] > registers[x] {
        registers[VF] := 1;
      } else {
        registers[VF] := 0;
      }
      registers[x] := Sub8(registers[y], registers[x]);
      IncrementPC(false);
    }

    /** 8xyE SHL */
    method ShiftLeft(x: nibble)
      requires Valid()
      modifies registers, this`programCounter
      ensures Valid() && View() == Semantics.ShiftLeft(old(View()), x)
    {
      registers[VF] := registers[x] / 0x80;
      registers[x] := 2 * (registers[x] as int) % 0x100;
      IncrementPC(false);
    }

    /** Cxkk RND, with `rnd` the random byte drawn for this instruction. */
    method Random(x: nibble, kk: byte, rnd: byte)
      requires Valid()
      modifies registers, this`programCounter
      ensures Valid() && View() == Semantics.Random(old(View()), x, kk, rnd)
    {
      registers[x] := And8(kk, rnd);
      IncrementPC(false);
    }

    // ----------------------------------------------------------- I register

    /** Annn LD I */
    method SetIndex(nnn: addr12)
      requires Valid()
      modifies this`iregister, this`programCounter
      ensures Valid() && View() == Semantics.SetIndex(old(View()), nnn)
    {
      iregister := nnn;
      IncrementPC(false);
    }

    /** Fx1E ADD I */
    method AddIndex(x: nibble)
      requires Valid()
      modifies this`iregister, this`programCounter
      ensures Valid() && View() == Semantics.AddIndex(old(View()), x)
    {
      iregister := Add16(iregister, registers[x]);
      IncrementPC(false);
    }

    /** Fx29 LD F */
    method FontIndex(x: nibble)
      requires Valid()
      modifies this`iregister, this`programCounter
      ensures Valid() && View() == Semantics.FontIndex(old(View()), x)
    {
      iregister := (registers[x] as int) * 5;
      IncrementPC(false);
    }

    // ------------------------------------------------------ timers and keys

    /** Fx07 LD Vx, DT */
    method ReadDelay(x: nibble)
      requires Valid()
      modifies registers, this`programCounter
      ensures Valid() && View() == Semantics.ReadDelay(old(View()), x)
    {
      registers[x] := delayTimer;
      IncrementPC(false);
    }

    /** Fx0A LD Vx, K, with `key` the input-map value of the polled event, if it maps. */
    method WaitKey(x: nibble, key: Option<byte>) returns (err: Option<Semantics.Fault>)
      requires Valid()
      modifies registers, this`programCounter
      ensures Valid()
      ensures match Semantics.WaitKey(old(View()), x, key)
        case Success(m) => err == None && View() == m
        case Failure(f) => err == Some(f) && View() == old(View())
    {
      if key.None? {
        return Some(Semantics.Stuck);
      }
      registers[x] := key.value;
      IncrementPC(false);
      return None;
    }

    /** Fx15 LD DT, Vx */
    method SetDelay(x: nibble)
      requires Valid()
      modifies this`delayTimer, this`programCounter
      ensures Valid() && View() == Semantics.SetDelay(old(View()), x)
    {
      delayTimer := registers[x];
      IncrementPC(false);
    }

    /** Fx18 LD ST, Vx */
    method SetSound(x: nibble)
      requires Valid()
      modifies this`soundTimer, this`programCounter
      ensures Valid() && View() == Semantics.SetSound(old(View()), x)
    {
      soundTimer := registers[x];
      IncrementPC(false);
    }

    // --------------------------------------------------------------- memory

    /** Fx33 LD B, Vx */
    method StoreBcd(x: nibble)
      requires Valid() && Readable(iregister, 3)
      modifies memory, this`programCounter
      ensures Valid() && View() == Semantics.StoreBcd(old(View()), x)
    {
      ReadableBlock(iregister, 3);
      memory[iregister] := registers[x] / 100;
      memory[iregister + 1] := (registers[x] / 10) % 10;
      memory[iregister + 2] := (registers[x] % 100) % 10;
      IncrementPC(false);
    }

    /** Fx55 LD [I], Vx: the loop over V0..Vx. */
    method StoreRegisters(x: nibble)
      requires Valid() && Readable(iregister, x + 1)
      modifies memory, this`programCounter
      ensures Valid() && View() == Semantics.StoreRegisters(old(View()), x)
    {
      ReadableBlock(iregister, x + 1);
      ghost var before := memory[..];
      var i := 0;
      while i <= x
        invariant 0 <= i <= x + 1 && programCounter == old(programCounter)
        invariant memory[..] == Semantics.Stored(before, registers[..], iregister, i)
      {
        memory[iregister + i] := registers[i];
        i := i + 1;
      }
      IncrementPC(false);
    }

    /** Fx65 LD Vx, [I]: the loop over V0..Vx. */
    method LoadRegisters(x: nibble)
      requires Valid() && Readable(iregister, x + 1)
      modifies registers, this`programCounter
      ensures Valid() && View() == Semantics.LoadRegisters(old(View()), x)
    {
      ReadableBlock(iregister, x + 1);
      ghost var before := registers[..];
      var i := 0;
      while i <= x
        invariant 0 <= i <= x + 1 && programCounter == old(programCounter)
        invariant registers[..] == Semantics.Loaded(before, memory[..], iregister, i)
      {
        registers[i] := memory[iregister + i];
        i := i + 1;
      }
      IncrementPC(false);
    }

    // ------------------------------------------------------------------ DRW

    /**
     * Dxyn DRW: VF cleared, then for each sprite row (yOffset) the row's
     * eight bits are drawn at the wrapped row Vy + yOffset.
     */
    method Draw(x: nibble, y: nibble, n: nibble)
      requires Valid() && Readable(iregister, n)
      modifies registers, display, this`programCounter
      ensures Valid() && View() == Sprite.Draw(old(View()), x, y, n)
    {
      ghost var m := View();
      ghost var j := Sprite.Setup(m.regs, m.display, Sprite.SpriteAt(m, n), x, y);
      registers[VF] := 0;
      var yOffset := 0;
      while yOffset < n
        invariant yOffset <= n && programCounter == m.pc
        invariant registers[VF] == Sprite.Flag(j, yOffset, 0)
        invariant forall k :: 0 <= k < REGISTER_COUNT && k != VF ==> registers[k] == j.regs[k]
        invariant forall R, C :: 0 <= R < DISPLAY_HEIGHT && 0 <= C < DISPLAY_WIDTH ==>
          display[R, C] == Sprite.Screen(j, yOffset, 0, R, C)
      {
        var yAdjusted := registers[y] as int + yOffset;
        if yAdjusted >= DISPLAY_HEIGHT {
          yAdjusted := yAdjusted % DISPLAY_HEIGHT;
        }
        var toDrawBits := Bits(memory[Add16(iregister, yOffset)]);
        DrawRow(j, x, yOffset, yAdjusted, toDrawBits);
        Sprite.RowStep(j, yOffset);
        yOffset := yOffset + 1;
      }
      assert registers[..] == j.regs[VF := Sprite.Flag(j, n, 0)];
      assert GridOf(display) == Sprite.Drawn(j);
      IncrementPC(false);
    }

    /**
     * The inner loop of DRW over xOffset: each bit of the row XORed into the
     * cell at the wrapped column Vx + xOffset, VF set when a set bit meets a
     * lit cell.
     */
    method DrawRow(ghost j: Sprite.Setup, x: nibble, yOffset: nat, yAdjusted: nat, toDrawBits: seq<bool>)
      requires Valid() && Sprite.Ok(j) && j.x == x && yOffset < |j.rows|
      requires yAdjusted == Sprite.Row(j, yOffset) && toDrawBits == Bits(j.rows[yOffset])
      requires registers[VF] == Sprite.Flag(j, yOffset, 0)
      requires forall k :: 0 <= k < REGISTER_COUNT && k != VF ==> registers[k] == j.regs[k]
      requires forall R, C :: 0 <= R < DISPLAY_HEIGHT && 0 <= C < DISPLAY_WIDTH ==>
        display[R, C] == Sprite.Screen(j, yOffset, 0, R, C)
      modifies registers, display
      ensures registers[VF] == Sprite.Flag(j, yOffset, 8)
      ensures forall k :: 0 <= k < REGISTER_COUNT && k != VF ==> registers[k] == j.regs[k]
      ensures forall R, C :: 0 <= R < DISPLAY_HEIGHT && 0 <= C < DISPLAY_WIDTH ==>
        display[R, C] == Sprite.Screen(j, yOffset, 8, R, C)
    {
      var xOffset := 0;
      while xOffset < |toDrawBits|
        invariant xOffset <= 8
        invariant registers[VF] == Sprite.Flag(j, yOffset, xOffset)
        invariant forall k :: 0 <= k < REGISTER_COUNT && k != VF ==> registers[k] == j.regs[k]
        invariant forall R, C :: 0 <= R < DISPLAY_HEIGHT && 0 <= C < DISPLAY_WIDTH ==>
          display[R, C] == Sprite.Screen(j, yOffset, xOffset, R, C)
      {
        var xAdjusted := registers[x] as int + xOffset;
        if xAdjusted >= DISPLAY_WIDTH {
          xAdjusted := xAdjusted % DISPLAY_WIDTH;
        }
        assert xAdjusted == Sprite.Col(j, yOffset, xOffset);
        assert toDrawBits[xOffset] == Sprite.Ink(j, yOffset, xOffset);
        assert display[yAdjusted, xAdjusted] == Sprite.Screen(j, yOffset, xOffset, yAdjusted, xAdjusted);
        Sprite.PixelStep(j, yOffset, xOffset);
        if toDrawBits[xOffset] && display[yAdjusted, xAdjusted] {
          registers[VF] := 1;
        }
        display[yAdjusted, xAdjusted] := display[yAdjusted, xAdjusted] != toDrawBits[xOffset];
        xOffset := xOffset + 1;
      }
    }

    // ------------------------------------------------------------- dispatch

    /**
     * parseInstruction: decode the fetched opcode and run its handler. On an
     * error (no handler, a stack fault, a key wait that never ends) nothing
     * changes. The switch on the class is split as the interpreter's is.
     */
    method ParseInstruction(rnd: byte, key: Option<byte>) returns (err: Option<Semantics.Fault>)
      requires Valid() && Semantics.Runs(View(), opcode)
      modifies registers, memory, display, keys, stack, stack.memory
      modifies this`programCounter, this`iregister, this`delayTimer, this`soundTimer, this`halted
      ensures Valid()
      ensures match Semantics.Step(old(View()), opcode, rnd, key)
        case Success(m) => err == None && View() == m
        case Failure(f) => err == Some(f) && View() == old(View())
    {
      var op := opcode;
      match Opcode.Decode(op)
      case None => return Some(Semantics.Unknown(op));
      case Some(ins) =>
        var c := Opcode.LayoutOf(ins).c;
        if c < 0x8 {
          err := ExecuteBasic(ins, rnd, key);
        } else if c == 0x8 {
          err := ExecuteArithmetic(ins, rnd, key);
        } else if c < 0xF {
          err := ExecuteMiscellaneous(ins, rnd, key);
        } else {
          err := ExecuteTimersAndMemory(ins, rnd, key);
        }
    }

    /** Classes 0 to 7: system calls, jumps, calls, skips and byte loads. */
    method ExecuteBasic(ins: Opcode.Instr, rnd: byte, key: Option<byte>) returns (err: Option<Semantics.Fault>)
      requires Valid() && Semantics.Safe(View(), ins) && Opcode.LayoutOf(ins).c < 0x8
      modifies registers, memory, display, keys, stack, stack.memory
      modifies this`programCounter, this`iregister, this`delayTimer, this`soundTimer, this`halted
      ensures Valid()
      ensures match Semantics.Exec(old(View()), ins, rnd, key)
        case Success(m) => err == None && View() == m
        case Failure(f) => err == Some(f) && View() == old(View())
    {
      err := None;
      match ins {
        case Cls => ClearScreen();
        case Ret => err := Return();
        case Exit => Halt();
        case Jp(nnn) => Jump(nnn);
        case Call(nnn) => err := CallSub(nnn);
        case SeByte(x, kk) => SkipEqualByte(x, kk);
        case SneByte(x, kk) => SkipNotEqualByte(x, kk);
        case SeReg(x, y) => SkipEqualRegs(x, y);
        case LdByte(x, kk) => LoadByte(x, kk);
        case AddByte(x, kk) => AddByte(x, kk);
        case _ => assert false;
      }
    }

    /** Class 8: register-to-register arithmetic and logic. */
    method ExecuteArithmetic(ins: Opcode.Instr, rnd: byte, key: Option<byte>) returns (err: Option<Semantics.Fault>)
      requires Valid() && Semantics.Safe(View(), ins) && Opcode.LayoutOf(ins).c == 0x8
      modifies registers, memory, display, keys, stack, stack.memory
      modifies this`programCounter, this`iregister, this`delayTimer, this`soundTimer, this`halted
      ensures Valid()
      ensures match Semantics.Exec(old(View()), ins, rnd, key)
        case Success(m) => err == None && View() == m
        case Failure(f) => err == Some(f) && View() == old(View())
    {
      err := None;
      match ins {
        case LdReg(x, y) => Copy(x, y);
        case Or(x, y) => OrRegs(x, y);
        case And(x, y) => AndRegs(x, y);
        case Xor(x, y) => XorRegs(x, y);
        case AddReg(x, y) => AddRegs(x, y);
        case Sub(x, y) => SubRegs(x, y);
        case Shr(x) => ShiftRight(x);
        case Subn(x, y) => SubnRegs(x, y);
        case Shl(x) => ShiftLeft(x);
        case _ => assert false;
      }
    }

    /** Classes 9 to E: SNE, the I register, JP V0, RND, DRW and the key skips. */
    method ExecuteMiscellaneous(ins: Opcode.Instr, rnd: byte, key: Option<byte>) returns (err: Option<Semantics.Fault>)
      requires Valid() && Semantics.Safe(View(), ins) && 0x8 < Opcode.LayoutOf(ins).c < 0xF
      modifies registers, memory, display, keys, stack, stack.memory
      modifies this`programCounter, this`iregister, this`delayTimer, this`soundTimer, this`halted
      ensures Valid()
      ensures match Semantics.Exec(old(View()), ins, rnd, key)
        case Success(m) => err == None && View() == m
        case Failure(f) => err == Some(f) && View() == old(View())
    {
      err := None;
      match ins {
        case SneReg(x, y) => SkipNotEqualRegs(x, y);
        case LdI(nnn) => SetIndex(nnn);
        case JpV0(nnn) => JumpOffset(nnn);
        case Rnd(x, kk) => Random(x, kk, rnd);
        case Drw(x, y, n) => Draw(x, y, n);
        case Skp(x) => SkipPressed(x);
        case Sknp(x) => SkipNotPressed(x);
        case _ => assert false;
      }
    }

    /** Class F: timers, the key wait, the I register and the memory transfers. */
    method ExecuteTimersAndMemory(ins: Opcode.Instr, rnd: byte, key: Option<byte>) returns (err: Option<Semantics.Fault>)
      requires Valid() && Semantics.Safe(View(), ins) && Opcode.LayoutOf(ins).c == 0xF
      modifies registers, memory, display, keys, stack, stack.memory
      modifies this`programCounter, this`iregister, this`delayTimer, this`soundTimer, this`halted
      ensures Valid()
      ensures match Semantics.Exec(old(View()), ins, rnd, key)
        case Success(m) => err == None && View() == m
        case Failure(f) => err == Some(f) && View() == old(View())
    {
      err := None;
      match ins {
        case LdDelay(x) => ReadDelay(x);
        case LdKey(x) => err := WaitKey(x, key);
        case SetDelay(x) => SetDelay(x);
        case SetSound(x) => SetSound(x);
        case AddI(x) => AddIndex(x);
        case LdFont(x) => FontIndex(x);
        case LdBcd(x) => StoreBcd(x);
        case StoreRegs(x) => StoreRegisters(x);
        case LoadRegs(x) => LoadRegisters(x);
        case _ => assert false;
      }
    }
  }
}
