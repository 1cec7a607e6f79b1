# CHIP-8 instruction interpreter and call stack

This project models the core of a CHIP-8 virtual machine written in Go:

- `parseInstruction` decodes one 16-bit opcode and runs its handler against the machine. The machine has sixteen 8-bit registers V0..VF, with VF as the flag register. It also has 4 KiB of memory, a 64x32 monochrome display, sixteen key bits, the program counter, the I register, the delay and sound timers, and a halt signal.
- The bounded return-address stack serves CALL and RET.

The model is in layers:

- `Bytes`: Go's `uint8` and `uint16` as bounded integers, with every wrap-around written out. It also holds the bitwise operators, stated bit by bit.
- `Opcode`: field extraction and the dispatch of `parseInstruction`, as `Decode`. An inverse `Encode` produces canonical opcodes. Round trips prove that decoding ignores exactly the bits no handler reads.
- `CallStack`: the stack as a value (`Frame`, with `PushFrame`, `PopFrame` and `PeekFrame`), and the in-place `Stack` class over an array. Each method is proved to do what the value function does.
- `State`: the machine value.
- `Semantics`: one function per handler, each stating what the instruction does to the machine. It follows the interpreter's statement order, so VF comes out as it does when x or y is 0xF. `Exec` and `Step` do the dispatch, and there are lemmas relating handlers.
- `Sprite`: DRW as a pointwise description of the two nested draw loops. `DrawXor` proves the closed form: the display becomes the old display XOR the wrapped sprite, and VF is 1 exactly when a set sprite bit lands on a lit pixel.
- `Interpreter`: the running interpreter as class `System`.
  - Registers, memory, display and keys are arrays, updated in place.
  - `ParseInstruction` and every handler are methods.
  - Each method is proved to leave `View()` equal to what the matching `Semantics` or `Sprite` function computes from the state before.
  - The DRW loops and the Fx55/Fx65 loops carry their invariants.

Inputs the interpreter takes from outside become parameters:

- `rnd` is the random byte of Cxkk.
- `key` is the input-map value of the event Fx0A polls, or `None` when the event is not a mapped key.

A Go panic on an out-of-range index becomes a precondition: `Semantics.Safe` for one instruction, and `Semantics.Runs` for an opcode.

The model follows the code's own choices among the CHIP-8 variants:

- 8xy5 SUB sets VF when Vx > Vy, strictly, and 8xy7 SUBN when Vy > Vx. The "VF = NOT borrow" reading, where VF = 1 when Vx >= Vy, is not what the code does.
- 8xy6 and 8xyE shift Vx itself and ignore y. The original interpreter shifted Vy into Vx instead.
- The register operands of 8xy5, 8xy6, 8xy7 and 8xyE are read after VF has been written. So when x or y is 0xF, the result is computed from the new VF.
- 8xy4 computes the carry with the test `(sum > Vx) == (Vy > 0)`. `Semantics.AddRegs` proves this test is exactly `Vx + Vy > 255`.

## Model

Several definitions are described by the lemma rows below rather than by a row of their own:

- `Opcode.Dispatch` is the switch statements of `parseInstruction`.
- `Opcode.Unassigned` is the set of opcodes that reach a `default` branch.
- `Sprite.Screen` is the display cell at each position of the draw loop.
- `Bytes.Add16` is Go's wrapping `uint16` addition.

| member | source | states |
|---|---|---|
| Bytes.Add8 | instruction.go:126 | the uint8 sum is a + b, or a + b - 256 exactly when a + b overflows |
| Bytes.Sub8 | instruction.go:183 | the uint8 difference is a - b, or a - b + 256 exactly when b > a |
| Bytes.Or8 | instruction.go:143 | bit c of a OR b is set iff bit c is set in a or in b |
| Bytes.And8 | instruction.go:150 | bit c of a AND b is set iff it is set in both |
| Bytes.Xor8 | instruction.go:157 | bit c of a XOR b is set iff it is set in exactly one |
| Bytes.Bits | instruction.go:265 | the eight bits of the sprite byte, most significant first, of length 8 |
| Bytes.BitsRoundTrip | instruction.go:265 | reading the eight bits back as a number gives the byte: Bits loses nothing |
| Bytes.JoinBits | instruction.go:143-157 | eight 0/1 digits have a place-value sum below 256 whose bit c is digit c |
| Opcode.FieldsOf | instruction.go:25-29 | nnn is x over kk, kk is y over n, and the opcode is its class nibble over nnn |
| Opcode.Decode | instruction.go:31-414 | the dispatch finds no handler exactly for the unassigned opcodes |
| Opcode.CanonicalClears | instruction.go:58-231 | canonicalising maps 0A00 to 0000, clears n of 5xyN and 9xyN and y of 8xy6 and 8xyE, and keeps every other opcode |
| Opcode.FieldsOfAssemble | instruction.go:25-29 | an assembled opcode has the class and fields it was assembled from |
| Opcode.DispatchLayout | instruction.go:31-414 | an instruction is selected by the fields of its layout whatever the other fields hold |
| Opcode.DecodeEncode | instruction.go:31-414 | every instruction decodes back from its canonical opcode |
| Opcode.EncodeDecode | instruction.go:31-414 | a decoded instruction re-encodes to the opcode with its ignored bits cleared |
| Opcode.LayoutDispatch | instruction.go:31-414 | the selected instruction's layout is the canonical layout of the selecting fields |
| Opcode.LayoutSubDispatch | instruction.go:132-221 | the same for classes 8, E and F, which select on n or kk |
| Opcode.DecodeIgnoresUnusedBits | instruction.go:31-414 | an opcode and its canonical form decode to the same instruction |
| State.ReadableBlock | instruction.go:264 | if I + j stays inside memory for every j < n, the block does not wrap and each uint16 sum is I + j |
| State.Advance | instruction.go:93-95 | incrementPC moves the PC by 2, or by 4 on a skip, modulo 2^16, and changes nothing else |
| Semantics.ClearScreen | instruction.go:35-44 | 00E0 turns every pixel off and otherwise only advances the PC |
| Semantics.Return | instruction.go:47-55 | 00EE fails with Underflow iff the stack is empty; otherwise the PC is the popped top plus 2, the stack holds the rest, and nothing else changes |
| Semantics.Halt | instruction.go:58-64 | 0000 and 0A00 raise the halt flag and advance the PC |
| Semantics.Jump | instruction.go:76-78 | 1nnn sets the PC to nnn without advancing |
| Semantics.CallSub | instruction.go:81-88 | 2nnn fails with Overflow iff the stack is full; otherwise the old PC is pushed on top, the PC is nnn, and nothing else changes |
| Semantics.SkipEqualByte | instruction.go:91-97 | 3xkk skips (PC + 4) iff Vx == kk and steps (PC + 2) iff not; only the PC changes |
| Semantics.SkipNotEqualByte | instruction.go:100-106 | 4xkk skips iff Vx != kk and steps iff Vx == kk; only the PC changes |
| Semantics.SkipEqualRegs | instruction.go:109-115 | 5xy0 skips iff Vx == Vy and steps iff not; only the PC changes |
| Semantics.LoadByte | instruction.go:118-122 | 6xkk sets Vx to kk; the other registers are kept |
| Semantics.AddByte | instruction.go:125-129 | 7xkk sets Vx to (Vx + kk) mod 256 and sets no flag |
| Semantics.Copy | instruction.go:135-139 | 8xy0 copies Vy to Vx; the other registers are kept |
| Semantics.OrRegs | instruction.go:142-146 | 8xy1 sets each bit of Vx to the OR of the bits of Vx and Vy; the other registers are kept |
| Semantics.AndRegs | instruction.go:149-153 | 8xy2 sets each bit of Vx to the AND of the bits of Vx and Vy |
| Semantics.XorRegs | instruction.go:156-160 | 8xy3 sets each bit of Vx to the XOR of the bits of Vx and Vy |
| Semantics.AddRegs | instruction.go:163-173 | 8xy4 sets Vx to (Vx + Vy) mod 256; for x other than F, VF is 1 iff Vx + Vy > 255 and 0 iff not |
| Semantics.SubRegs | instruction.go:176-186 | 8xy5, for x other than F: VF is 1 iff Vx > Vy and 0 iff Vx <= Vy; for x and y other than F, Vx is (Vx - Vy) mod 256 |
| Semantics.ShiftRight | instruction.go:189-195 | 8xy6, for x other than F: VF is the low bit of Vx and Vx is halved, so 2 Vx' + VF == Vx |
| Semantics.SubnRegs | instruction.go:198-208 | 8xy7, for x other than F: VF is 1 iff Vy > Vx; for x and y other than F, Vx is (Vy - Vx) mod 256 |
| Semantics.ShiftLeft | instruction.go:211-217 | 8xyE, for x other than F: VF is bit 7 of Vx and Vx is 2 Vx mod 256, so 128 VF + Vx'/2 == Vx |
| Semantics.SkipNotEqualRegs | instruction.go:225-231 | 9xy0 skips iff Vx != Vy and steps iff Vx == Vy; only the PC changes |
| Semantics.SetIndex | instruction.go:234-238 | Annn sets I to nnn |
| Semantics.JumpOffset | instruction.go:241-243 | Bnnn sets the PC to nnn + V0, which never wraps |
| Semantics.Random | instruction.go:246-250 | Cxkk sets each bit of Vx to the AND of the bits of kk and the random byte |
| Semantics.SkipPressed | instruction.go:297-307 | Ex9E skips iff key Vx is down and steps iff it is up; the key ends released; nothing else but the PC changes |
| Semantics.SkipNotPressed | instruction.go:310-320 | ExA1 skips iff key Vx is up and steps iff it is down; the key ends released |
| Semantics.ReadDelay | instruction.go:329-333 | Fx07 sets Vx to the delay timer |
| Semantics.WaitKey | instruction.go:336-350 | Fx0A sets Vx to the mapped key when the polled event is one, and is stuck (fails with Stuck) iff it is not |
| Semantics.SetDelay | instruction.go:353-357 | Fx15 sets the delay timer to Vx |
| Semantics.SetSound | instruction.go:360-364 | Fx18 sets the sound timer to Vx |
| Semantics.AddIndex | instruction.go:367-371 | Fx1E sets I to (I + Vx) mod 2^16 |
| Semantics.FontIndex | instruction.go:374-378 | Fx29 sets I to 5 Vx |
| Semantics.StoreBcd | instruction.go:381-387 | Fx33 writes three decimal digits d0 d1 d2 at I, I+1 and I+2 with 100 d0 + 10 d1 + d2 == Vx; no other cell changes |
| Semantics.DecimalDigits | instruction.go:382-384 | the three Fx33 expressions are digits that spell the byte |
| Semantics.StoreRegisters | instruction.go:390-396 | Fx55 copies V0..Vx to memory at I..I+x; no other cell changes |
| Semantics.LoadRegisters | instruction.go:399-405 | Fx65 copies memory at I..I+x to V0..Vx; registers above x are kept |
| Semantics.Exec | instruction.go:31-414 | a decoded instruction leaves a valid machine, and can fail only with a stack fault or a stuck key wait |
| Semantics.Step | instruction.go:22-417 | parseInstruction reports Unknown(op) exactly for the unassigned opcodes and otherwise leaves a valid machine |
| Semantics.StepIgnoresUnusedBits | instruction.go:31-414 | a step on an opcode equals a step on its canonical form |
| Semantics.CallThenReturn | instruction.go:47-88 | CALL then RET on a non-full stack lands after the CALL, with the stack as before but for the zeroed vacated slot |
| Semantics.StoreThenLoad | instruction.go:390-405 | Fx55 then Fx65 with the same x and I gives back the registers |
| Semantics.LoadThenStore | instruction.go:390-405 | Fx65 then Fx55 with the same x and I gives back the memory |
| Semantics.SkipsComplement | instruction.go:91-115 | of SE and SNE on the same operands exactly one skips |
| Sprite.Wrap | instruction.go:260-262 | the conditional wrap of a coordinate equals the coordinate mod the dimension |
| Sprite.Flag | instruction.go:254-278 | VF at each position of the draw loop is 0 or 1 |
| Sprite.Row | instruction.go:259-262 | the screen row of sprite row r is below 32 |
| Sprite.Col | instruction.go:271-274 | the screen column of bit c is below 64 |
| Sprite.PixelStep | instruction.go:276-279 | one pixel raises VF iff its bit is set over a lit cell, and flips exactly its own cell when its bit is set |
| Sprite.RowStep | instruction.go:258-287 | moving on to the next sprite row changes neither VF nor the display |
| Sprite.SpriteAt | instruction.go:264 | sprite row j is memory[I + j] as a uint16 sum |
| Sprite.Draw | instruction.go:253-291 | DRW changes only VF, the display and the PC |
| Sprite.RowFixed | instruction.go:259-262 | for y other than F, sprite row r lands on screen row (Vy + r) mod 32 |
| Sprite.ColFixed | instruction.go:271-274 | for x other than F, bit c lands on screen column (Vx + c) mod 64 |
| Sprite.ScreenXor | instruction.go:258-287 | for x and y other than F, every cell during the loop is its starting value XOR whether a set bit drawn so far landed on it |
| Sprite.FreshCell | instruction.go:276 | for x and y other than F, each pixel finds its cell as it was before the loop |
| Sprite.FlagLit | instruction.go:254-278 | for x and y other than F, VF during the loop is 1 iff some set bit drawn so far met a cell lit at the start |
| Sprite.LitCollides | instruction.go:276-278 | some set bit of the sprite met a cell lit at the start iff the sprite collides with the starting display; with FlagLit, for x and y other than F, this is VF at the end of the loop |
| Sprite.DrawXor | instruction.go:253-291 | for x and y other than F, DRW leaves the display XOR the wrapped sprite, and VF is 1 iff a set bit landed on a lit pixel; no other register changes |
| Sprite.DrawnXor | instruction.go:258-287 | for x and y other than F, the final display of the loop is the start XOR the sprite |
| Sprite.DrawPixel | instruction.go:276-279 | for x and y other than F, cell (Vy + r, Vx + c) ends as itself XOR bit c of memory[I + r] |
| Sprite.DrawTwiceRestores | instruction.go:253-291 | for x and y other than F, drawing the same sprite twice restores the display |
| Sprite.HitAfterXor | instruction.go:276-279 | a set bit meets a lit cell of the once-drawn display exactly when the first draw turned that cell on |
| Sprite.SecondDrawCollides | instruction.go:253-291 | for x and y other than F, the second draw of the same sprite sets VF to 1 iff the first draw turned some cell on |
| CallStack.Empty | stack.go:14-18 | a new stack has `size` slots and holds nothing |
| CallStack.PushFrame | stack.go:21-30 | push fails with Overflow iff the stack is full; otherwise the contents gain the item on top and only slot `index` changes |
| CallStack.PopFrame | stack.go:33-43 | pop fails with Underflow iff the stack is empty; otherwise it returns the top, the contents lose it, and its slot is zeroed |
| CallStack.PeekFrame | stack.go:46-52 | peek fails with Underflow iff the stack is empty, otherwise returns the top |
| CallStack.PushPopRoundTrip | stack.go:21-43 | a push then a pop gives back the item and the old index, with the vacated slot zeroed |
| CallStack.PushPeek | stack.go:21-52 | peek after push sees the pushed item |
| CallStack.PushAll | stack.go:21-30 | a run of pushes stopping at the first failure keeps the stack bounded |
| CallStack.PushAllFits | stack.go:21-30 | a run of pushes succeeds iff it fits the free slots, and then the contents are the old ones followed by the items; otherwise it overflows |
| CallStack.FillToCapacity | stack.go:14-30 | a new stack of capacity `size` takes `size` pushes and overflows on one more |
| CallStack.NewStackAsWritten | stack.go:14-18 | newStack as written sizes the memory and leaves index and capacity at 0 |
| CallStack.PushAsWritten | stack.go:21-30 | push as written fails iff index equals the capacity field |
| CallStack.FirstPushOverflowsAsWritten | stack.go:14-30 | as written, the first push onto any new stack reports a full stack |
| CallStack.Stack.constructor | stack.go:14-18 | newStack: a fresh array of `size` zeroed slots, holding nothing |
| CallStack.Stack.Push | stack.go:21-30 | push in place does what PushFrame says, or changes nothing on Overflow |
| CallStack.Stack.Pop | stack.go:33-43 | pop in place does what PopFrame says, or returns 0 and changes nothing on Underflow |
| CallStack.Stack.Peek | stack.go:46-52 | peek returns what PeekFrame says |
| CallStack.Stack.Size | stack.go:55-57 | size returns the number of slots, that is the capacity, not the number of items |
| CallStack.Stack.Capacity | stack.go:59-61 | capacity returns the capacity, which is the number of slots of the stack's value |
| Interpreter.System.IncrementPC | instruction.go:93-95 | the machine after incrementPC is Advance of the machine before |
| Interpreter.System.ClearDisplay | instruction.go:36 | the nested loops turn every pixel off and change nothing else |
| Interpreter.System.ClearScreen | instruction.go:35-44 | the machine after 00E0 is Semantics.ClearScreen of the machine before |
| Interpreter.System.Return | instruction.go:47-55 | 00EE in place matches Semantics.Return; on Underflow the error is returned and nothing changes |
| Interpreter.System.Halt | instruction.go:58-64 | matches Semantics.Halt |
| Interpreter.System.Jump | instruction.go:76-78 | matches Semantics.Jump |
| Interpreter.System.CallSub | instruction.go:81-88 | 2nnn in place matches Semantics.CallSub; on Overflow the error is returned and nothing changes |
| Interpreter.System.SkipEqualByte | instruction.go:91-97 | matches Semantics.SkipEqualByte |
| Interpreter.System.SkipNotEqualByte | instruction.go:100-106 | matches Semantics.SkipNotEqualByte |
| Interpreter.System.SkipEqualRegs | instruction.go:109-115 | matches Semantics.SkipEqualRegs |
| Interpreter.System.LoadByte | instruction.go:118-122 | matches Semantics.LoadByte |
| Interpreter.System.AddByte | instruction.go:125-129 | matches Semantics.AddByte |
| Interpreter.System.Copy | instruction.go:135-139 | matches Semantics.Copy |
| Interpreter.System.OrRegs | instruction.go:142-146 | matches Semantics.OrRegs |
| Interpreter.System.AndRegs | instruction.go:149-153 | matches Semantics.AndRegs |
| Interpreter.System.XorRegs | instruction.go:156-160 | matches Semantics.XorRegs |
| Interpreter.System.AddRegs | instruction.go:163-173 | the in-place carry test and write order match Semantics.AddRegs |
| Interpreter.System.SubRegs | instruction.go:176-186 | matches Semantics.SubRegs |
| Interpreter.System.ShiftRight | instruction.go:189-195 | matches Semantics.ShiftRight |
| Interpreter.System.SubnRegs | instruction.go:198-208 | matches Semantics.SubnRegs |
| Interpreter.System.ShiftLeft | instruction.go:211-217 | matches Semantics.ShiftLeft |
| Interpreter.System.SkipNotEqualRegs | instruction.go:225-231 | matches Semantics.SkipNotEqualRegs |
| Interpreter.System.SetIndex | instruction.go:234-238 | matches Semantics.SetIndex |
| Interpreter.System.JumpOffset | instruction.go:241-243 | matches Semantics.JumpOffset |
| Interpreter.System.Random | instruction.go:246-250 | matches Semantics.Random for the drawn byte |
| Interpreter.System.Draw | instruction.go:253-291 | the two nested draw loops leave the machine Sprite.Draw computes, VF included, for every x and y |
| Interpreter.System.DrawRow | instruction.go:270-286 | the inner loop over one sprite row takes VF and every cell from loop position (r, 0) to (r, 8) |
| Interpreter.System.SkipPressed | instruction.go:297-307 | releasing the key only when pressed matches Semantics.SkipPressed |
| Interpreter.System.SkipNotPressed | instruction.go:310-320 | matches Semantics.SkipNotPressed |
| Interpreter.System.ReadDelay | instruction.go:329-333 | matches Semantics.ReadDelay |
| Interpreter.System.WaitKey | instruction.go:336-350 | matches Semantics.WaitKey; when stuck the fault is returned and nothing changes |
| Interpreter.System.SetDelay | instruction.go:353-357 | matches Semantics.SetDelay |
| Interpreter.System.SetSound | instruction.go:360-364 | matches Semantics.SetSound |
| Interpreter.System.AddIndex | instruction.go:367-371 | matches Semantics.AddIndex |
| Interpreter.System.FontIndex | instruction.go:374-378 | matches Semantics.FontIndex |
| Interpreter.System.StoreBcd | instruction.go:381-387 | the three memory writes match Semantics.StoreBcd |
| Interpreter.System.StoreRegisters | instruction.go:390-396 | the copy loop matches Semantics.StoreRegisters |
| Interpreter.System.LoadRegisters | instruction.go:399-405 | the copy loop matches Semantics.LoadRegisters |
| Interpreter.System.ParseInstruction | instruction.go:22-417 | one call does what Semantics.Step says; on any error the error is returned and the machine is unchanged |
| Interpreter.System.ExecuteBasic | instruction.go:31-129 | classes 0 to 7 do what Semantics.Exec says |
| Interpreter.System.ExecuteArithmetic | instruction.go:132-222 | class 8 does what Semantics.Exec says |
| Interpreter.System.ExecuteMiscellaneous | instruction.go:225-324 | classes 9 to E do what Semantics.Exec says |
| Interpreter.System.ExecuteTimersAndMemory | instruction.go:326-410 | class F does what Semantics.Exec says |

## Left out

- Terminal output is not modelled. This covers the `termbox` clear and flush of 00E0 and DRW, and the cell-buffer characters DRW writes. The display array is the model's screen. 00E0's flush error is therefore not a modelled error path.
- The `bits` helper is not part of this model. `Bytes.Bits` takes it to return the eight bits of the byte, most significant first, and never to fail, so the error return of DRW (instruction.go:265-268) is not modelled.
- `Semantics.WaitKey`: the polled event is the parameter `key`. Fx0A polls once and then loops without polling again, so an event that is not a mapped key never returns. The model reports this as the fault `Stuck` with the machine unchanged. It does not model the non-termination itself.
- `Semantics.Halt`: the send on the halt channel is modelled as setting the `halted` flag. Blocking on the channel is not modelled.
- `Semantics.Random`: `rand.Intn(256)` is the parameter `rnd`.
- `Semantics.SkipPressed`, `Semantics.SkipNotPressed`: stopping and clearing the key's release timer is not modelled. The timers belong to the input code, which is not part of this model.
- The messages of the errors are not modelled; only the kind of error is kept.
- Index panics are not modelled as behaviour. A Go panic on an out-of-range memory or key index becomes a precondition: `Semantics.Safe` for an instruction and `Semantics.Runs` for an opcode. This covers the memory reads of DRW and Fx65, the key index of Ex9E and ExA1, and the memory writes of Fx33 and Fx55.
- State changed before such a panic is therefore not modelled:
  - Fx55 (instruction.go:391-393): the cells written before the loop reaches an out-of-range address.
  - Fx65 (instruction.go:400-402): the registers loaded before the loop reaches an out-of-range address.
  - Fx33 (instruction.go:382-384): with I = 4094, the two cells written before `memory[4096]` panics.
  - DRW (instruction.go:254-279): VF is already cleared, and the earlier rows are already XORed into the display, when a later row's read at instruction.go:264 panics.
- Construction of the system, the fetch of `opcode`, the timer decay and the key input lie outside `parseInstruction` and are not part of this model. `Interpreter.System.constructor` builds an all-zero machine only to show the invariant can be established.
- `Interpreter.System.ParseInstruction` splits the class switch across four methods by class group. The behaviour is that of the single switch.
- stack.go does not compile as written:
  - the guards use bare `index` and `capacity`;
  - `pop` takes an unused `item` parameter and declares `item` again;
  - the `capacity` method clashes with the field;
  - `size` returns an `int` as `uint`.

  The model reads the guards as the stack's own fields and drops the unused parameter. The main model takes the capacity to be the number of slots. The code as written is modelled separately; see Findings.
- `CallStack.Stack.Size` returns the number of slots, as the source does, not the number of items pushed.

## Findings

| source | as written | input that shows it | evidently intended | confidence | as-written member | corrected member |
|---|---|---|---|---|---|---|
| stack.go:14-30 | `newStack` never sets `capacity`, so it stays 0, and push's guard `index == capacity` holds on a new stack | `newStack(16)` then `push(0x200)` returns "Stack is full" | capacity equals the number of slots, so a new stack takes `size` pushes and overflows on the next | not executed; the guard is read as `stack.index == stack.capacity` | CallStack.FirstPushOverflowsAsWritten | CallStack.FillToCapacity |
