/**
 * Decoding of one 16-bit CHIP-8 opcode: the fields x, y, n, nnn and kk, and
 * the instruction selected by the high nibble and, where a class has several
 * forms, by its low nibble or low byte. The source's masks and shifts
 * (`(op & 0x0F00) >> 8`, ...) are written as division and remainder.
 */
module Opcode {
  import opened Bytes
  import opened Wrappers

  /** The decoded operand fields of an opcode. */
  datatype Fields = Fields(x: nibble, y: nibble, n: nibble, nnn: addr12, kk: byte)

  /** The high nibble, `(op & 0xF000) >> 12`, which selects the instruction class. */
  function Class(op: u16): (c: nibble)
  {
    op / 0x1000
  }

  /** The operand fields every handler may use. */
  function FieldsOf(op: u16): (f: Fields)
    ensures f.nnn == 0x100 * f.x + f.kk && f.kk == 0x10 * f.y + f.n
    ensures op == 0x1000 * Class(op) + f.nnn
  {
    FieldParts(op);
    Fields((op / 0x100) % 0x10, (op / 0x10) % 0x10, op % 0x10, op % 0x1000, op % 0x100)
  }

  /** The masks nest: the low 12 bits are x over the low byte, the low byte is y over n. */
  lemma FieldParts(op: u16)
    ensures op % 0x1000 == 0x100 * ((op / 0x100) % 0x10) + op % 0x100
    ensures op % 0x100 == 0x10 * ((op / 0x10) % 0x10) + op % 0x10
    ensures op == 0x1000 * (op / 0x1000) + op % 0x1000
  {
    var hi := op / 0x100;
    assert op == 0x1000 * (hi / 0x10) + (0x100 * (hi % 0x10) + op % 0x100);
    Split(0x1000, hi / 0x10, 0x100 * (hi % 0x10) + op % 0x100);
    var mid := op / 0x10;
    assert op == 0x100 * (mid / 0x10) + (0x10 * (mid % 0x10) + op % 0x10);
    Split(0x100, mid / 0x10, 0x10 * (mid % 0x10) + op % 0x10);
  }

  /** The instructions the interpreter recognises, named after their mnemonics. */
  datatype Instr =
    | Cls                           // 00E0
    | Ret                           // 00EE
    | Exit                          // 0000 and 0A00
    | Jp(addr: addr12)              // 1nnn
    | Call(addr: addr12)            // 2nnn
    | SeByte(x: nibble, kk: byte)   // 3xkk
    | SneByte(x: nibble, kk: byte)  // 4xkk
    | SeReg(x: nibble, y: nibble)   // 5xyN
    | LdByte(x: nibble, kk: byte)   // 6xkk
    | AddByte(x: nibble, kk: byte)  // 7xkk
    | LdReg(x: nibble, y: nibble)   // 8xy0
    | Or(x: nibble, y: nibble)      // 8xy1
    | And(x: nibble, y: nibble)     // 8xy2
    | Xor(x: nibble, y: nibble)     // 8xy3
    | AddReg(x: nibble, y: nibble)  // 8xy4
    | Sub(x: nibble, y: nibble)     // 8xy5
    | Shr(x: nibble)                // 8xN6
    | Subn(x: nibble, y: nibble)    // 8xy7
    | Shl(x: nibble)                // 8xNE
    | SneReg(x: nibble, y: nibble)  // 9xyN
    | LdI(addr: addr12)             // Annn
    | JpV0(addr: addr12)            // Bnnn
    | Rnd(x: nibble, kk: byte)      // Cxkk
    | Drw(x: nibble, y: nibble, n: nibble) // Dxyn
    | Skp(x: nibble)                // Ex9E
    | Sknp(x: nibble)               // ExA1
    | LdDelay(x: nibble)            // Fx07
    | LdKey(x: nibble)              // Fx0A
    | SetDelay(x: nibble)           // Fx15
    | SetSound(x: nibble)           // Fx18
    | AddI(x: nibble)               // Fx1E
    | LdFont(x: nibble)             // Fx29
    | LdBcd(x: nibble)              // Fx33
    | StoreRegs(x: nibble)          // Fx55
    | LoadRegs(x: nibble)           // Fx65

  /**
   * The opcodes whose sub-selector matches no case: in class 0 (where the
   * opcode equals its nnn field) anything but 00E0, 00EE, 0A00 and 0000; in
   * class 8 a low nibble outside 0-7 and E; in classes E and F a low byte
   * outside their lists. Every other class accepts all its opcodes.
   */
  predicate Unassigned(op: u16)
  {
    var f := FieldsOf(op);
    match Class(op)
    case 0x0 => !(f.nnn == 0x0E0 || f.nnn == 0x0EE || f.nnn == 0xA00 || f.nnn == 0x000)
    case 0x8 => !(f.n <= 0x7 || f.n == 0xE)
    case 0xE => !(f.kk == 0x9E || f.kk == 0xA1)
    case 0xF =>
      !(|| f.kk == 0x07 || f.kk == 0x0A || f.kk == 0x15 || f.kk == 0x18 || f.kk == 0x1E
        || f.kk == 0x29 || f.kk == 0x33 || f.kk == 0x55 || f.kk == 0x65)
    case _ => false
  }

  /**
   * The dispatch of parseInstruction: None for an invalid operation. Class 0
   * switches on the whole opcode, which there equals nnn; class 8 on
   * `op & 0x000F`, which is n; classes E and F on `op & 0x00FF`, which is kk.
   */
  function Decode(op: u16): (r: Option<Instr>)
    ensures r.None? <==> Unassigned(op)
  {
    Dispatch(Class(op), FieldsOf(op))
  }

  /** The switch statements of parseInstruction, on the class and the fields of an opcode. */
  function Dispatch(c: nibble, f: Fields): (r: Option<Instr>)
  {
    var x, y, n, nnn, kk := f.x, f.y, f.n, f.nnn, f.kk;
    match c
    case 0x0 =>
      (match nnn
       case 0x0E0 => Some(Cls)
       case 0x0EE => Some(Ret)
       case 0xA00 => Some(Exit)
       case 0x000 => Some(Exit)
       case _ => None)
    case 0x1 => Some(Jp(nnn))
    case 0x2 => Some(Call(nnn))
    case 0x3 => Some(SeByte(x, kk))
    case 0x4 => Some(SneByte(x, kk))
    case 0x5 => Some(SeReg(x, y))
    case 0x6 => Some(LdByte(x, kk))
    case 0x7 => Some(AddByte(x, kk))
    case 0x8 =>
      (match n
       case 0x0 => Some(LdReg(x, y))
       case 0x1 => Some(Or(x, y))
       case 0x2 => Some(And(x, y))
       case 0x3 => Some(Xor(x, y))
       case 0x4 => Some(AddReg(x, y))
       case 0x5 => Some(Sub(x, y))
       case 0x6 => Some(Shr(x))
       case 0x7 => Some(Subn(x, y))
       case 0xE => Some(Shl(x))
       case _ => None)
    case 0x9 => Some(SneReg(x, y))
    case 0xA => Some(LdI(nnn))
    case 0xB => Some(JpV0(nnn))
    case 0xC => Some(Rnd(x, kk))
    case 0xD => Some(Drw(x, y, n))
    case 0xE =>
      (match kk
       case 0x9E => Some(Skp(x))
       case 0xA1 => Some(Sknp(x))
       case _ => None)
    case _ =>
      (match kk
       case 0x07 => Some(LdDelay(x))
       case 0x0A => Some(LdKey(x))
       case 0x15 => Some(SetDelay(x))
       case 0x18 => Some(SetSound(x))
       case 0x1E => Some(AddI(x))
       case 0x29 => Some(LdFont(x))
       case 0x33 => Some(LdBcd(x))
       case 0x55 => Some(StoreRegs(x))
       case 0x65 => Some(LoadRegs(x))
       case _ => None)
  }

  /**
   * How an instruction's operands sit in its opcode: a class nibble and a
   * 12-bit address, a class nibble, a register and a byte, or a class nibble
   * and three more nibbles.
   */
  datatype Layout =
    | AddrForm(c: nibble, a: addr12)
    | ByteForm(c: nibble, x: nibble, kk: byte)
    | RegForm(c: nibble, x: nibble, y: nibble, n: nibble)

  /** The opcode a layout stands for. */
  function Assemble(l: Layout): (op: u16)
  {
    match l
    case AddrForm(c, a) => 0x1000 * c + a
    case ByteForm(c, x, kk) => 0x1000 * c + 0x100 * x + kk
    case RegForm(c, x, y, n) => 0x1000 * c + 0x100 * x + 0x10 * y + n
  }

  /** The layout of the canonical opcode of an instruction: ignored fields are zero. */
  function LayoutOf(ins: Instr): (l: Layout)
  {
    match ins
    case Cls => AddrForm(0x0, 0x0E0)
    case Ret => AddrForm(0x0, 0x0EE)
    case Exit => AddrForm(0x0, 0x000)
    case Jp(a) => AddrForm(0x1, a)
    case Call(a) => AddrForm(0x2, a)
    case SeByte(x, kk) => ByteForm(0x3, x, kk)
    case SneByte(x, kk) => ByteForm(0x4, x, kk)
    case SeReg(x, y) => RegForm(0x5, x, y, 0x0)
    case LdByte(x, kk) => ByteForm(0x6, x, kk)
    case AddByte(x, kk) => ByteForm(0x7, x, kk)
    case LdReg(x, y) => RegForm(0x8, x, y, 0x0)
    case Or(x, y) => RegForm(0x8, x, y, 0x1)
    case And(x, y) => RegForm(0x8, x, y, 0x2)
    case Xor(x, y) => RegForm(0x8, x, y, 0x3)
    case AddReg(x, y) => RegForm(0x8, x, y, 0x4)
    case Sub(x, y) => RegForm(0x8, x, y, 0x5)
    case Shr(x) => RegForm(0x8, x, 0x0, 0x6)
    case Subn(x, y) => RegForm(0x8, x, y, 0x7)
    case Shl(x) => RegForm(0x8, x, 0x0, 0xE)
    case SneReg(x, y) => RegForm(0x9, x, y, 0x0)
    case LdI(a) => AddrForm(0xA, a)
    case JpV0(a) => AddrForm(0xB, a)
    case Rnd(x, kk) => ByteForm(0xC, x, kk)
    case Drw(x, y, n) => RegForm(0xD, x, y, n)
    case Skp(x) => ByteForm(0xE, x, 0x9E)
    case Sknp(x) => ByteForm(0xE, x, 0xA1)
    case LdDelay(x) => ByteForm(0xF, x, 0x07)
    case LdKey(x) => ByteForm(0xF, x, 0x0A)
    case SetDelay(x) => ByteForm(0xF, x, 0x15)
    case SetSound(x) => ByteForm(0xF, x, 0x18)
    case AddI(x) => ByteForm(0xF, x, 0x1E)
    case LdFont(x) => ByteForm(0xF, x, 0x29)
    case LdBcd(x) => ByteForm(0xF, x, 0x33)
    case StoreRegs(x) => ByteForm(0xF, x, 0x55)
    case LoadRegs(x) => ByteForm(0xF, x, 0x65)
  }

  /** The canonical opcode of an instruction. */
  function Encode(ins: Instr): (op: u16)
  {
    Assemble(LayoutOf(ins))
  }

  /**
   * The layout of the canonical form of the opcode with class c and fields f:
   * the bits the interpreter ignores are cleared, that is the low nibble of
   * 5xyN and 9xyN and the y nibble of 8xy6 and 8xyE, and 0A00 becomes 0000.
   */
  function CanonicalLayout(c: nibble, f: Fields): (l: Layout)
  {
    if c == 0x0 then AddrForm(c, if f.nnn == 0xA00 then 0x000 else f.nnn)
    else if c == 0x1 || c == 0x2 || c == 0xA || c == 0xB then AddrForm(c, f.nnn)
    else if c == 0x5 || c == 0x9 then RegForm(c, f.x, f.y, 0x0)
    else if c == 0x8 then RegForm(c, f.x, if f.n == 0x6 || f.n == 0xE then 0x0 else f.y, f.n)
    else if c == 0xD then RegForm(c, f.x, f.y, f.n)
    else ByteForm(c, f.x, f.kk)
  }

  /** `op` with the bits the interpreter ignores cleared. */
  function Canonical(op: u16): (r: u16)
  {
    Assemble(CanonicalLayout(Class(op), FieldsOf(op)))
  }

  /** Canonical clears exactly the ignored bits and keeps every other opcode as it is. */
  lemma CanonicalClears(op: u16)
    ensures var c, f := Class(op), FieldsOf(op);
      Canonical(op) ==
        if op == 0x0A00 then 0x0000
        else if c == 0x5 || c == 0x9 then op - f.n
        else if c == 0x8 && (f.n == 0x6 || f.n == 0xE) then op - 0x10 * f.y
        else op
  {
  }

  /** The fields a layout fixes. */
  predicate Agrees(l: Layout, f: Fields)
  {
    match l
    case AddrForm(_, a) => f.nnn == a
    case ByteForm(_, x, kk) => f.x == x && f.kk == kk
    case RegForm(_, x, y, n) => f.x == x && f.y == y && f.n == n
  }

  /** Splitting a number into a quotient and a remainder by a power of sixteen. */
  lemma Split(m: nat, q: nat, r: nat)
    requires m == 0x10 || m == 0x100 || m == 0x1000
    requires r < m
    ensures (m * q + r) / m == q && (m * q + r) % m == r
  {
  }

  /** An assembled opcode has the class and the fields it was assembled from. */
  lemma FieldsOfAssemble(l: Layout)
    ensures Class(Assemble(l)) == l.c && Agrees(l, FieldsOf(Assemble(l)))
  {
    match l
    case AddrForm(c, a) =>
      Split(0x1000, c, a);
    case ByteForm(c, x, kk) =>
      Split(0x1000, c, 0x100 * x + kk);
      Split(0x100, 0x10 * c + x, kk);
      Split(0x10, c, x);
    case RegForm(c, x, y, n) =>
      Split(0x1000, c, 0x100 * x + 0x10 * y + n);
      Split(0x100, 0x10 * c + x, 0x10 * y + n);
      Split(0x10, c, x);
      Split(0x10, 0x100 * c + 0x10 * x + y, n);
      Split(0x10, 0x10 * c + x, y);
  }

  /** The dispatch selects an instruction from the fields its layout fixes, whatever the other fields hold. */
  lemma DispatchLayout(ins: Instr, f: Fields)
    requires Agrees(LayoutOf(ins), f)
    ensures Dispatch(LayoutOf(ins).c, f) == Some(ins)
  {
  }

  /** Every instruction decodes back from its canonical opcode. */
  lemma DecodeEncode(ins: Instr)
    ensures Decode(Encode(ins)) == Some(ins)
  {
    FieldsOfAssemble(LayoutOf(ins));
    DispatchLayout(ins, FieldsOf(Encode(ins)));
  }

  /** Encoding a decoded instruction gives the opcode back, up to the ignored bits. */
  lemma EncodeDecode(op: u16)
    requires Decode(op).Some?
    ensures Encode(Decode(op).value) == Canonical(op)
  {
    LayoutDispatch(Class(op), FieldsOf(op));
  }

  /** The instruction the dispatch selects has the canonical layout of the fields it was selected by. */
  lemma LayoutDispatch(c: nibble, f: Fields)
    requires Dispatch(c, f).Some?
    ensures LayoutOf(Dispatch(c, f).value) == CanonicalLayout(c, f)
  {
    if c == 0x8 || c == 0xE || c == 0xF {
      LayoutSubDispatch(c, f);
    }
  }

  /** LayoutDispatch for the classes that select on a sub-field: 8 on n, E and F on kk. */
  lemma LayoutSubDispatch(c: nibble, f: Fields)
    requires c == 0x8 || c == 0xE || c == 0xF
    requires Dispatch(c, f).Some?
    ensures LayoutOf(Dispatch(c, f).value) == CanonicalLayout(c, f)
  {
  }

  /** The interpreter does the same thing whatever the ignored bits hold. */
  lemma DecodeIgnoresUnusedBits(op: u16)
    ensures Decode(op) == Decode(Canonical(op))
  {
    if Decode(op).Some? {
      EncodeDecode(op);
      DecodeEncode(Decode(op).value);
    } else {
      CanonicalClears(op);
    }
  }
}
