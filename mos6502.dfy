/**
 * The instruction semantics of src/core/cpu6502.js as functions: what one
 * instruction does to the registers, the memory seen through the bus and
 * the unknown-opcode tally. The `CPU6502` class in module Cpu6502 is proved
 * to follow these functions; the lemmas here state what the source promises
 * about them.
 *
 * The status register `P` is kept as its eight flags; `Pack` forms the byte
 * pushed on the stack or saved, `Unpack` reads one back, and the two are
 * proved inverse.
 */
module Mos6502 {
  import opened Bits
  import opened Wrappers
  import JsMap
  import JsString

  /** The 64 KiB the processor addresses. */
  type Memory = s: seq<byte> | |s| == 0x1_0000 witness seq(0x1_0000, _ => 0)

  /** The flags of `P`: N V U B D I Z C from bit 7 down to bit 0. */
  datatype Status = Status(n: bool, v: bool, u: bool, b: bool, d: bool, i: bool, z: bool, c: bool)

  datatype Registers = Registers(a: byte, x: byte, y: byte, sp: byte, p: Status, pc: word, totalCycles: nat)

  /** What one instruction may change. `unknown` is the `unknownOpcodes` map as its entry list. */
  datatype Machine = Machine(regs: Registers, mem: Memory, unknown: JsMap.Entries<int, int>)

  /** An instruction that always completes, and the cycles it costs. */
  datatype Executed = Executed(m: Machine, cycles: nat)

  /** An instruction or step that may throw: the machine as the throw leaves it, and the cycles or the error. */
  datatype Stepped = Stepped(m: Machine, result: Result<nat>)

  datatype Operand = Operand(address: word, pageCross: bool)

  datatype Mode = Immediate | ZeroPage | ZeroPageX | ZeroPageY | Absolute | AbsoluteX | AbsoluteY | IndirectX | IndirectY

  // ---------------------------------------------------------------- status byte

  function Pack(s: Status): (p: byte)
  {
    (if s.c then 0x01 else 0) + (if s.z then 0x02 else 0) + (if s.i then 0x04 else 0) + (if s.d then 0x08 else 0)
    + (if s.b then 0x10 else 0) + (if s.u then 0x20 else 0) + (if s.v then 0x40 else 0) + (if s.n then 0x80 else 0)
  }

  /** The flags of a status byte: bit `k` set is `(p & (1 << k)) !== 0`. */
  function Unpack(p: byte): Status
  {
    var p6 := Below(p, 0x80);
    var p5 := Below(p6, 0x40);
    var p4 := Below(p5, 0x20);
    var p3 := Below(p4, 0x10);
    var p2 := Below(p3, 0x08);
    var p1 := Below(p2, 0x04);
    var p0 := Below(p1, 0x02);
    Status(p >= 0x80, p6 >= 0x40, p5 >= 0x20, p4 >= 0x10, p3 >= 0x08, p2 >= 0x04, p1 >= 0x02, p0 == 1)
  }

  lemma UnpackPack(s: Status)
    ensures Unpack(Pack(s)) == s
  {
    var p1 := if s.c then 0x01 else 0;
    var p2 := p1 + if s.z then 0x02 else 0;
    var p3 := p2 + if s.i then 0x04 else 0;
    var p4 := p3 + if s.d then 0x08 else 0;
    var p5 := p4 + if s.b then 0x10 else 0;
    var p6 := p5 + if s.u then 0x20 else 0;
    var p7 := p6 + if s.v then 0x40 else 0;
    var p := Pack(s);
    assert p == p7 + if s.n then 0x80 else 0;
    assert Below(p, 0x80) == p7;
    assert Below(p7, 0x40) == p6;
    assert Below(p6, 0x20) == p5;
    assert Below(p5, 0x10) == p4;
    assert Below(p4, 0x08) == p3;
    assert Below(p3, 0x04) == p2;
    assert Below(p2, 0x02) == p1;
  }

  lemma PackUnpack(p: byte)
    ensures Pack(Unpack(p)) == p
  {
  }

  /** `setZN`: Z from a zero byte, N from bit 7. */
  function SetZN(p: Status, value: byte): Status
  {
    p.(z := value == 0, n := value >= 0x80)
  }

  // ---------------------------------------------------------------- addressing

  function Next(pc: word, n: nat): word
  {
    (pc + n) % 0x1_0000
  }

  /** `read16`: little-endian, the high byte at the next address modulo 2^16. */
  function Read16(mem: Memory, address: word): word
  {
    mem[address] as int + 0x100 * mem[Next(address, 1)] as int
  }

  /** `read16Bug`: the high byte is read from the same 256-byte page as the low byte. */
  function Read16Bug(mem: Memory, address: word): word
  {
    mem[address] as int + 0x100 * mem[address / 0x100 * 0x100 + (address + 1) % 0x100] as int
  }

  /** A pointer held in page 0; its high byte wraps to 0x00 after 0xFF. */
  function ZeroPagePointer(mem: Memory, zeroPage: byte): word
  {
    mem[zeroPage] as int + 0x100 * mem[(zeroPage + 1) % 0x100] as int
  }

  /** `base + index` modulo 2^16, and whether it left the base's page. */
  function Indexed(base: word, index: byte): Operand
  {
    var address := (base + index) % 0x1_0000;
    Operand(address, base / 0x100 != address / 0x100)
  }

  /** The operand bytes that follow the opcode. */
  function Length(mode: Mode): nat
  {
    match mode
    case Absolute | AbsoluteX | AbsoluteY => 2
    case _ => 1
  }

  /** The effective address of each addressing helper; `r.pc` points at the first operand byte. */
  function Resolve(r: Registers, mem: Memory, mode: Mode): Operand
  {
    match mode
    case Immediate => Operand(r.pc, false)
    case ZeroPage => Operand(mem[r.pc], false)
    case ZeroPageX => Operand((mem[r.pc] + r.x) % 0x100, false)
    case ZeroPageY => Operand((mem[r.pc] + r.y) % 0x100, false)
    case Absolute => Operand(Read16(mem, r.pc), false)
    case AbsoluteX => Indexed(Read16(mem, r.pc), r.x)
    case AbsoluteY => Indexed(Read16(mem, r.pc), r.y)
    case IndirectX => Operand(ZeroPagePointer(mem, (mem[r.pc] + r.x) % 0x100), false)
    case IndirectY => Indexed(ZeroPagePointer(mem, mem[r.pc]), r.y)
  }

  /** PC moved past the operand bytes. */
  function Advance(m: Machine, mode: Mode): Machine
  {
    m.(regs := m.regs.(pc := Next(m.regs.pc, Length(mode))))
  }

  function Fetched(m: Machine, mode: Mode): byte
  {
    m.mem[Resolve(m.regs, m.mem, mode).address]
  }

  /** Zero-page indexing stays inside page 0. */
  lemma ZeroPageIndexWraps(r: Registers, mem: Memory)
    ensures Resolve(r, mem, ZeroPageX).address == (mem[r.pc] + r.x) % 0x100 < 0x100
    ensures Resolve(r, mem, ZeroPageY).address == (mem[r.pc] + r.y) % 0x100 < 0x100
  {
  }

  /** Both pointer bytes of (zp,X) and (zp),Y come from page 0: after 0xFF the high byte is read at 0x00. */
  lemma PointerWraps(mem: Memory, zeroPage: byte)
    ensures ZeroPagePointer(mem, zeroPage) == mem[zeroPage] as int + 0x100 * mem[if zeroPage == 0xff then 0 else zeroPage + 1] as int
  {
  }

  // ---------------------------------------------------------------- arithmetic

  /** `((~(a ^ operand) & (a ^ result)) & 0x80) !== 0`. */
  function Overflow(a: byte, operand: byte, result: byte): bool
  {
    Bit(And(Not(Xor(a, operand, 8), 8), Xor(a, result, 8), 8), 7)
  }

  /** `adc`: binary add with carry; the D flag is not consulted. */
  function Adc(r: Registers, value: byte): Registers
  {
    var carryIn := if r.p.c then 1 else 0;
    var sum := r.a + value + carryIn;
    var result := sum % 0x100;
    r.(a := result, p := SetZN(r.p.(c := sum > 0xff, v := Overflow(r.a, value, result)), result))
  }

  /** `(value ^ 0xff) & 0xff`. */
  function Complement(value: byte): byte
  {
    Pow2Values();
    Xor(value, 0xff, 8)
  }

  /** `sbc`: `adc` of the complemented operand. */
  function Sbc(r: Registers, value: byte): Registers
  {
    Adc(r, Complement(value))
  }

  /** The byte read as a two's-complement number. */
  function Signed(x: byte): int
  {
    if x < 0x80 then x else x - 0x100
  }

  /** The overflow expression is true exactly when both operands have one sign and the result the other. */
  lemma OverflowOfSigns(a: byte, operand: byte, result: byte)
    ensures Overflow(a, operand, result) == ((a >= 0x80) == (operand >= 0x80) && (a >= 0x80) != (result >= 0x80))
  {
    Pow2Values();
    var x := Xor(a, operand, 8);
    var y := Xor(a, result, 8);
    BitOfAnd(Not(x, 8), y, 8, 7);
    BitOfNot(x, 8, 7);
    BitOfXor(a, operand, 8, 7);
    BitOfXor(a, result, 8, 7);
    SignBit(a);
    SignBit(operand);
    SignBit(result);
  }

  /** Bit 7 of a byte is its sign. */
  lemma SignBit(x: nat)
    requires x < 0x100
    ensures Bit(x, 7) == (x >= 0x80)
  {
    var x1 := x / 2;
    var x2 := x1 / 2;
    var x3 := x2 / 2;
    var x4 := x3 / 2;
    var x5 := x4 / 2;
    var x6 := x5 / 2;
    var x7 := x6 / 2;
    assert Bit(x, 7) == Bit(x1, 6) == Bit(x2, 5) == Bit(x3, 4) == Bit(x4, 3) == Bit(x5, 2) == Bit(x6, 1) == Bit(x7, 0);
  }

  /**
   * ADC is binary whatever D says: A becomes (A + M + C) mod 256, C is the carry out of bit 7,
   * V is signed overflow, Z and N follow the result, and I, D, B, U are kept.
   */
  lemma AdcBinary(r: Registers, value: byte)
    ensures var carry := if r.p.c then 1 else 0;
      var after := Adc(r, value);
      && after.a == (r.a + value + carry) % 0x100
      && after.p.c == (r.a + value + carry > 0xff)
      && after.p.v == !(-0x80 <= Signed(r.a) + Signed(value) + carry < 0x80)
      && after.p.z == (after.a == 0) && after.p.n == (after.a >= 0x80)
      && after.p.(c := r.p.c, v := r.p.v, z := r.p.z, n := r.p.n) == r.p
      && after == r.(a := after.a, p := after.p)
  {
    var carry := if r.p.c then 1 else 0;
    var sum := r.a + value + carry;
    if sum > 0xff {
      DivModOf(sum, 0x100, 1, sum - 0x100);
    } else {
      DivModOf(sum, 0x100, 0, sum);
    }
    OverflowOfSigns(r.a, value, sum % 0x100);
  }

  /** SBC subtracts with borrow: A becomes (A - M - (1 - C)) mod 256 and C is set exactly when no borrow occurs. */
  lemma SbcBinary(r: Registers, value: byte)
    ensures var carry := if r.p.c then 1 else 0;
      var after := Sbc(r, value);
      && after.a == (r.a - value - (1 - carry)) % 0x100
      && after.p.c == (r.a - value - (1 - carry) >= 0)
      && after.p.v == !(-0x80 <= Signed(r.a) - Signed(value) - (1 - carry) < 0x80)
  {
    Pow2Values();
    XorWithOnes(value, 8);
    var complement := 0xff - value;
    assert Complement(value) == complement;
    AdcBinary(r, complement);
    var carry := if r.p.c then 1 else 0;
    var difference := r.a - value - (1 - carry);
    if difference >= 0 {
      DivModOf(difference, 0x100, 0, difference);
      DivModOf(difference + 0x100, 0x100, 1, difference);
    } else {
      DivModOf(difference, 0x100, -1, difference + 0x100);
      DivModOf(difference + 0x100, 0x100, 0, difference + 0x100);
    }
    assert Signed(complement) == -Signed(value) - 1;
  }

  /** `compare`: C when register >= value, Z when they are equal, N from bit 7 of the difference. */
  function Compare(p: Status, register: byte, value: byte): Status
  {
    var result := (register - value) % 0x200;
    p.(c := register >= value, z := result % 0x100 == 0, n := (result / 0x80) % 2 == 1)
  }

  lemma CompareFlags(p: Status, register: byte, value: byte)
    ensures Compare(p, register, value).c == (register >= value)
    ensures Compare(p, register, value).z == (register == value)
    ensures Compare(p, register, value).n == ((register - value) % 0x100 >= 0x80)
    ensures Compare(p, register, value).(c := p.c, z := p.z, n := p.n) == p
  {
  }

  /** `bit`: Z from `A & M`, V and N copied from bits 6 and 7 of M. */
  function BitTest(p: Status, a: byte, value: byte): Status
  {
    p.(z := And(a, value, 8) == 0, v := (value / 0x40) % 2 == 1, n := value >= 0x80)
  }

  /** The carry out and the result of ASL (0), ROL (1), LSR (2) and ROR (3). */
  function ShiftResult(operation: nat, source: byte, carryIn: bool): (bool, byte)
    requires operation <= 3
  {
    if operation == 0 then (source >= 0x80, source * 2 % 0x100)
    else if operation == 1 then (source >= 0x80, (source * 2 + (if carryIn then 1 else 0)) % 0x100)
    else if operation == 2 then (source % 2 == 1, source / 2)
    else (source % 2 == 1, source / 2 + (if carryIn then 0x80 else 0))
  }

  /** ROR undoes ROL: the nine bits of carry and value rotate back. */
  lemma RotateRoundTrip(source: byte, carry: bool)
    ensures var left := ShiftResult(1, source, carry);
      ShiftResult(3, left.1, left.0) == (carry, source)
  {
  }

  // ---------------------------------------------------------------- stack

  function Push(m: Machine, value: byte): Machine
  {
    m.(mem := m.mem[0x100 + m.regs.sp := value], regs := m.regs.(sp := (m.regs.sp - 1) % 0x100))
  }

  function Pop(m: Machine): (Machine, byte)
  {
    var sp := (m.regs.sp + 1) % 0x100;
    (m.(regs := m.regs.(sp := sp)), m.mem[0x100 + sp])
  }

  /** `push16`: the high byte first, so the low byte sits at the lower address. */
  function Push16(m: Machine, value: word): Machine
  {
    Push(Push(m, value / 0x100), value % 0x100)
  }

  function Pop16(m: Machine): (Machine, word)
  {
    var (m1, low) := Pop(m);
    var (m2, high) := Pop(m1);
    (m2, low + 0x100 * high)
  }

  /** A push writes at 0x0100 | SP, inside page 1, and moves SP down modulo 256. */
  lemma PushInPageOne(m: Machine, value: byte)
    ensures 0x100 <= 0x100 + m.regs.sp < 0x200
    ensures Push(m, value).mem == m.mem[0x100 + m.regs.sp := value]
    ensures Push(m, value).regs.sp == if m.regs.sp == 0 then 0xff else m.regs.sp - 1
  {
  }

  /** Pop after push returns the pushed byte and restores SP. */
  lemma PopAfterPush(m: Machine, value: byte)
    ensures Pop(Push(m, value)).1 == value
    ensures Pop(Push(m, value)).0.regs == m.regs
  {
  }

  /** A 16-bit value pushed and popped back is unchanged, and so is SP. */
  lemma Pop16AfterPush16(m: Machine, value: word)
    ensures Pop16(Push16(m, value)).1 == value
    ensures Pop16(Push16(m, value)).0.regs == m.regs
  {
    var sp: int := m.regs.sp;
    SlotsWrap(m.regs.sp);
    var pushed := Push16(m, value);
    assert pushed.regs.sp == ((sp - 1) % 0x100 - 1) % 0x100;
    assert pushed.mem[0x100 + (sp - 1) % 0x100] == value % 0x100;
    assert pushed.mem[0x100 + sp] == value / 0x100;
    DivModOf(value, 0x100, value / 0x100, value % 0x100);
  }

  // ---------------------------------------------------------------- interrupts

  /** `interrupt`: push PC and P (B from `isBreak`, U set), set I, jump through the vector; 7 cycles. */
  function Interrupt(m: Machine, vector: word, isBreak: bool): Machine
  {
    var m1 := Push16(m, m.regs.pc);
    var m2 := Push(m1, Pack(m1.regs.p.(b := isBreak, u := true)));
    m2.(regs := m2.regs.(p := m2.regs.p.(i := true), pc := Read16(m2.mem, vector), totalCycles := m2.regs.totalCycles + 7))
  }

  // ---------------------------------------------------------------- group 1 (cc = 01)

  const READ_CYCLES: seq<nat> := [6, 3, 2, 4, 5, 4, 4, 4]
  const STORE_CYCLES: seq<nat> := [6, 3, 2, 4, 6, 4, 5, 5]

  /** Addressing mode field bbb of a group-1 opcode. */
  function Group1Mode(mode: nat): Mode
    requires mode < 8
  {
    [IndirectX, ZeroPage, Immediate, Absolute, IndirectY, ZeroPageX, AbsoluteY, AbsoluteX][mode]
  }

  function Load(m: Machine, value: byte): Machine
  {
    m.(regs := m.regs.(a := value, p := SetZN(m.regs.p, value)))
  }

  /** ORA, AND, EOR, ADC, STA, LDA, CMP, SBC on the resolved address; PC already past the operand. */
  function Group1Operation(m: Machine, operation: nat, address: word): Machine
    requires operation < 8
  {
    Pow2Values();
    var r := m.regs;
    var value := m.mem[address];
    if operation == 0 then Load(m, Or(r.a, value, 8))
    else if operation == 1 then Load(m, And(r.a, value, 8))
    else if operation == 2 then Load(m, Xor(r.a, value, 8))
    else if operation == 3 then m.(regs := Adc(r, value))
    else if operation == 4 then m.(mem := m.mem[address := r.a])
    else if operation == 5 then Load(m, value)
    else if operation == 6 then m.(regs := r.(p := Compare(r.p, r.a, value)))
    else m.(regs := Sbc(r, value))
  }

  /**
   * `executeGroup1`: opcodes aaabbb01. Reads in (zp),Y, abs,Y and abs,X pay one
   * cycle when the page changes; stores never do. `STA #imm` (0x89) consumes its
   * operand byte and costs 2 cycles.
   */
  function Group1(m: Machine, opcode: byte): Executed
    requires opcode % 4 == 1
  {
    var operation := opcode / 0x20;
    var mode := opcode / 4 % 8;
    var operand := Resolve(m.regs, m.mem, Group1Mode(mode));
    var resolved := Advance(m, Group1Mode(mode));
    if operation == 4 && mode == 2 then Executed(resolved, 2)
    else
      var cycles := if operation == 4 then STORE_CYCLES[mode] else READ_CYCLES[mode];
      var extra := if operation != 4 && operand.pageCross && (mode == 4 || mode == 6 || mode == 7) then 1 else 0;
      Executed(Group1Operation(resolved, operation, operand.address), cycles + extra)
  }

  /** As written, `STA #imm` reads a further immediate byte after resolving the immediate address. */
  function StoreImmediateAsWritten(m: Machine): Executed
  {
    var resolved := Advance(m, Immediate);
    Executed(resolved.(regs := resolved.regs.(pc := Next(resolved.regs.pc, 1))), 2)
  }

  // ---------------------------------------------------------------- group 2 (cc = 10)

  /** Addressing mode field bbb of a shift or INC/DEC: zp, A, abs, zp,X, abs,X. */
  function ModifyMode(mode: nat): Mode
    requires mode == 1 || mode == 3 || mode == 5 || mode == 7
  {
    if mode == 1 then ZeroPage else if mode == 5 then ZeroPageX else if mode == 3 then Absolute else AbsoluteX
  }

  function ModifyCycles(mode: nat): nat
  {
    if mode == 1 then 5 else if mode == 5 then 6 else if mode == 3 then 6 else 7
  }

  /** `executeShift`: ASL, ROL, LSR, ROR on A (mode 2) or memory; no page-cross cycle. */
  function Shift(m: Machine, operation: nat, mode: nat): Option<Executed>
    requires operation <= 3
  {
    if mode == 2 then
      var (carry, result) := ShiftResult(operation, m.regs.a, m.regs.p.c);
      Some(Executed(m.(regs := m.regs.(a := result, p := SetZN(m.regs.p.(c := carry), result))), 2))
    else if mode == 1 || mode == 5 || mode == 3 || mode == 7 then
      var address := Resolve(m.regs, m.mem, ModifyMode(mode)).address;
      var r := Advance(m, ModifyMode(mode)).regs;
      var (carry, result) := ShiftResult(operation, m.mem[address], r.p.c);
      Some(Executed(Machine(r.(p := SetZN(r.p.(c := carry), result)), m.mem[address := result], m.unknown), ModifyCycles(mode)))
    else None
  }

  /** INC (`increase`) and DEC on memory. */
  function IncDec(m: Machine, increase: bool, mode: nat): Option<Executed>
  {
    if mode == 1 || mode == 5 || mode == 3 || mode == 7 then
      var address := Resolve(m.regs, m.mem, ModifyMode(mode)).address;
      var r := Advance(m, ModifyMode(mode)).regs;
      var value := m.mem[address];
      var next := if increase then (value as int + 1) % 0x100 else (value as int - 1) % 0x100;
      Some(Executed(Machine(r.(p := SetZN(r.p, next)), m.mem[address := next], m.unknown), ModifyCycles(mode)))
    else None
  }

  function StoreX(m: Machine, mode: nat): Option<Executed>
  {
    if mode == 1 || mode == 5 || mode == 3 then
      var addressing := if mode == 1 then ZeroPage else if mode == 5 then ZeroPageY else Absolute;
      var address := Resolve(m.regs, m.mem, addressing).address;
      Some(Executed(Advance(m.(mem := m.mem[address := m.regs.x]), addressing), if mode == 1 then 3 else 4))
    else None
  }

  function LoadX(m: Machine, mode: nat): Option<Executed>
  {
    if mode == 0 || mode == 1 || mode == 5 || mode == 3 || mode == 7 then
      var addressing := [Immediate, ZeroPage, Immediate, Absolute, Immediate, ZeroPageY, Immediate, AbsoluteY][mode];
      var operand := Resolve(m.regs, m.mem, addressing);
      var value := m.mem[operand.address];
      var m1 := Advance(m, addressing);
      var cycles := [2, 3, 2, 4, 2, 4, 2, 4][mode] + (if mode == 7 && operand.pageCross then 1 else 0);
      Some(Executed(m1.(regs := m1.regs.(x := value, p := SetZN(m1.regs.p, value))), cycles))
    else None
  }

  /** `executeGroup2`: opcodes aaabbb10; `None` is the source's `null`, which falls through to the switch. */
  function Group2(m: Machine, opcode: byte): Option<Executed>
    requires opcode % 4 == 2
  {
    var operation := opcode / 0x20;
    var mode := opcode / 4 % 8;
    if operation <= 3 then Shift(m, operation, mode)
    else if operation == 4 then StoreX(m, mode)
    else if operation == 5 then LoadX(m, mode)
    else IncDec(m, operation == 7, mode)
  }

  // ---------------------------------------------------------------- the switch

  const CONTROL_OPCODES: set<int> := {0x00, 0x20, 0x40, 0x60, 0x08, 0x28, 0x48, 0x68, 0x4c, 0x6c}
  const BRANCH_OPCODES: set<int> := {0x10, 0x30, 0x50, 0x70, 0x90, 0xb0, 0xd0, 0xf0}
  const FLAG_OPCODES: set<int> := {0x18, 0x38, 0x58, 0x78, 0xb8, 0xd8, 0xf8}
  const INDEX_OPCODES: set<int> := {0x24, 0x2c, 0x84, 0x94, 0x8c, 0xa0, 0xa4, 0xb4, 0xac, 0xbc, 0xc0, 0xc4, 0xcc, 0xe0, 0xe4, 0xec}
  const IMPLIED_OPCODES: set<int> := {0x88, 0xa8, 0xc8, 0xe8, 0x8a, 0x9a, 0xaa, 0xba, 0x98, 0xca}
  const NOP_OPCODES: set<int> := {0xea, 0xeb, 0x1a, 0x3a, 0x5a, 0x7a, 0xda, 0xfa, 0x80, 0x82, 0x89, 0xc2, 0xe2,
                                  0x04, 0x44, 0x64, 0x14, 0x34, 0x54, 0x74, 0xd4, 0xf4, 0x0c, 0x1c, 0x3c, 0x5c, 0x7c, 0xdc, 0xfc}

  /** BRK: skip the padding byte, push PC and P with B and U set, set I, jump through 0xFFFE; 7 cycles. */
  function Brk(m: Machine): Machine
  {
    var m1 := m.(regs := m.regs.(pc := Next(m.regs.pc, 1)));
    var m2 := Push(Push16(m1, m1.regs.pc), Pack(m.regs.p.(b := true, u := true)));
    m2.(regs := m2.regs.(p := m2.regs.p.(i := true), pc := Read16(m2.mem, 0xfffe)))
  }

  /** JSR: push the address of the operand's last byte, jump to the operand; 6 cycles. */
  function Jsr(m: Machine): Machine
  {
    var target := Resolve(m.regs, m.mem, Absolute).address;
    var m1 := Advance(m, Absolute);
    var m2 := Push16(m1, (m1.regs.pc - 1) % 0x1_0000);
    m2.(regs := m2.regs.(pc := target))
  }

  /** P as PLP and RTI load it: B cleared, U set. */
  function Pulled(value: byte): Status
  {
    Unpack(value).(b := false, u := true)
  }

  /** RTI: pull P, then PC; 6 cycles. */
  function Rti(m: Machine): Machine
  {
    var (m1, value) := Pop(m);
    var (m2, pc) := Pop16(m1.(regs := m1.regs.(p := Pulled(value))));
    m2.(regs := m2.regs.(pc := pc))
  }

  /** RTS: pull PC and add one; 6 cycles. */
  function Rts(m: Machine): Machine
  {
    var (m1, pc) := Pop16(m);
    m1.(regs := m1.regs.(pc := Next(pc, 1)))
  }

  /** PHP: push P with B and U set; 3 cycles. */
  function Php(m: Machine): Machine
  {
    Push(m, Pack(m.regs.p.(b := true, u := true)))
  }

  /** PLP; 4 cycles. */
  function Plp(m: Machine): Machine
  {
    var (m1, value) := Pop(m);
    m1.(regs := m1.regs.(p := Pulled(value)))
  }

  /** JMP (ind), through `read16Bug`; 5 cycles. */
  function JmpIndirect(m: Machine): Machine
  {
    m.(regs := m.regs.(pc := Read16Bug(m.mem, Resolve(m.regs, m.mem, Absolute).address)))
  }

  /** BRK, JSR, RTI, RTS, PHP, PLP, PHA, PLA, JMP abs, JMP (ind). */
  function Control(m: Machine, opcode: byte): Executed
    requires opcode in CONTROL_OPCODES
  {
    if opcode == 0x00 then Executed(Brk(m), 7)
    else if opcode == 0x20 then Executed(Jsr(m), 6)
    else if opcode == 0x40 then Executed(Rti(m), 6)
    else if opcode == 0x60 then Executed(Rts(m), 6)
    else if opcode == 0x08 then Executed(Php(m), 3)
    else if opcode == 0x28 then Executed(Plp(m), 4)
    else if opcode == 0x48 then Executed(Push(m, m.regs.a), 3)
    else if opcode == 0x68 then
      var (m1, value) := Pop(m);
      Executed(Load(m1, value), 4)
    else if opcode == 0x4c then Executed(m.(regs := m.regs.(pc := Resolve(m.regs, m.mem, Absolute).address)), 3)
    else Executed(JmpIndirect(m), 5)
  }

  /** The condition of BPL, BMI, BVC, BVS, BCC, BCS, BNE, BEQ. */
  function BranchTaken(p: Status, opcode: byte): bool
    requires opcode in BRANCH_OPCODES
  {
    if opcode == 0x10 then !p.n
    else if opcode == 0x30 then p.n
    else if opcode == 0x50 then !p.v
    else if opcode == 0x70 then p.v
    else if opcode == 0x90 then !p.c
    else if opcode == 0xb0 then p.c
    else if opcode == 0xd0 then !p.z
    else p.z
  }

  /** `branch`: the signed offset is added to the PC after the operand. */
  function Branch(m: Machine, condition: bool): Executed
  {
    var offsetByte := m.mem[m.regs.pc];
    var previous := Next(m.regs.pc, 1);
    if !condition then Executed(m.(regs := m.regs.(pc := previous)), 2)
    else
      var target := (previous + Signed(offsetByte)) % 0x1_0000;
      Executed(m.(regs := m.regs.(pc := target)), if previous / 0x100 != target / 0x100 then 4 else 3)
  }

  /** CLC, SEC, CLI, SEI, CLV, CLD, SED. */
  function FlagOperation(m: Machine, opcode: byte): Executed
    requires opcode in FLAG_OPCODES
  {
    var p := m.regs.p;
    var p' := if opcode == 0x18 then p.(c := false)
      else if opcode == 0x38 then p.(c := true)
      else if opcode == 0x58 then p.(i := false)
      else if opcode == 0x78 then p.(i := true)
      else if opcode == 0xb8 then p.(v := false)
      else if opcode == 0xd8 then p.(d := false)
      else p.(d := true);
    Executed(m.(regs := m.regs.(p := p')), 2)
  }

  function LoadY(m: Machine, mode: Mode): Machine
  {
    var value := Fetched(m, mode);
    var m1 := Advance(m, mode);
    m1.(regs := m1.regs.(y := value, p := SetZN(m1.regs.p, value)))
  }

  /** Compare X (`withX`) or Y with the operand. */
  function CompareIndex(m: Machine, withX: bool, mode: Mode): Machine
  {
    var value := Fetched(m, mode);
    var m1 := Advance(m, mode);
    m1.(regs := m1.regs.(p := Compare(m1.regs.p, if withX then m.regs.x else m.regs.y, value)))
  }

  /** BIT, STY, LDY, CPY, CPX. */
  function IndexOperation(m: Machine, opcode: byte): Executed
    requires opcode in INDEX_OPCODES
  {
    if opcode == 0x24 || opcode == 0x2c then
      var mode := if opcode == 0x24 then ZeroPage else Absolute;
      var value := Fetched(m, mode);
      var m1 := Advance(m, mode);
      Executed(m1.(regs := m1.regs.(p := BitTest(m1.regs.p, m1.regs.a, value))), if opcode == 0x24 then 3 else 4)
    else if opcode == 0x84 || opcode == 0x94 || opcode == 0x8c then
      var mode := if opcode == 0x84 then ZeroPage else if opcode == 0x94 then ZeroPageX else Absolute;
      var address := Resolve(m.regs, m.mem, mode).address;
      Executed(Advance(m.(mem := m.mem[address := m.regs.y]), mode), if opcode == 0x84 then 3 else 4)
    else if opcode == 0xa0 then Executed(LoadY(m, Immediate), 2)
    else if opcode == 0xa4 then Executed(LoadY(m, ZeroPage), 3)
    else if opcode == 0xb4 then Executed(LoadY(m, ZeroPageX), 4)
    else if opcode == 0xac then Executed(LoadY(m, Absolute), 4)
    else if opcode == 0xbc then
      Executed(LoadY(m, AbsoluteX), 4 + if Resolve(m.regs, m.mem, AbsoluteX).pageCross then 1 else 0)
    else
      var withX := opcode >= 0xe0;
      var mode := if opcode % 0x20 == 0 then Immediate else if opcode % 0x10 == 4 then ZeroPage else Absolute;
      Executed(CompareIndex(m, withX, mode), if mode == Immediate then 2 else if mode == ZeroPage then 3 else 4)
  }

  /** DEY, TAY, INY, INX, TXA, TXS, TAX, TSX, TYA, DEX; TXS alone leaves the flags. */
  function Implied(m: Machine, opcode: byte): Executed
    requires opcode in IMPLIED_OPCODES
  {
    var r := m.regs;
    var r' :=
      if opcode == 0x88 then var y := (r.y - 1) % 0x100; r.(y := y, p := SetZN(r.p, y))
      else if opcode == 0xa8 then r.(y := r.a, p := SetZN(r.p, r.a))
      else if opcode == 0xc8 then var y := (r.y + 1) % 0x100; r.(y := y, p := SetZN(r.p, y))
      else if opcode == 0xe8 then var x := (r.x + 1) % 0x100; r.(x := x, p := SetZN(r.p, x))
      else if opcode == 0x8a then r.(a := r.x, p := SetZN(r.p, r.x))
      else if opcode == 0x9a then r.(sp := r.x)
      else if opcode == 0xaa then r.(x := r.a, p := SetZN(r.p, r.a))
      else if opcode == 0xba then r.(x := r.sp, p := SetZN(r.p, r.sp))
      else if opcode == 0x98 then r.(a := r.y, p := SetZN(r.p, r.y))
      else var x := (r.x - 1) % 0x100; r.(x := x, p := SetZN(r.p, x));
    Executed(m.(regs := r'), 2)
  }

  /** NOP and the unofficial NOPs (which read and skip their operand), and SBC #imm (0xEB). */
  function Nop(m: Machine, opcode: byte): Executed
    requires opcode in NOP_OPCODES
  {
    if opcode == 0xeb then
      var value := Fetched(m, Immediate);
      var m1 := Advance(m, Immediate);
      Executed(m1.(regs := Sbc(m1.regs, value)), 2)
    else if opcode in {0xea, 0x1a, 0x3a, 0x5a, 0x7a, 0xda, 0xfa} then Executed(m, 2)
    else if opcode in {0x80, 0x82, 0x89, 0xc2, 0xe2} then Executed(Advance(m, Immediate), 2)
    else if opcode in {0x04, 0x44, 0x64} then Executed(Advance(m, ZeroPage), 3)
    else if opcode in {0x14, 0x34, 0x54, 0x74, 0xd4, 0xf4} then Executed(Advance(m, ZeroPageX), 4)
    else if opcode == 0x0c then Executed(Advance(m, Absolute), 4)
    else Executed(Advance(m, AbsoluteX), 4 + if Resolve(m.regs, m.mem, AbsoluteX).pageCross then 1 else 0)
  }

  function IllegalMessage(opcode: byte, pc: word): string
  {
    "Unsupported opcode 0x" + JsString.HexString(opcode) + " at 0x" + JsString.HexString((pc - 1) % 0x1_0000)
  }

  /** The count of `opcode` in the tally, 0 when absent (`?? 0`). */
  function Count(unknown: JsMap.Entries<int, int>, opcode: int): int
  {
    match JsMap.Get(unknown, opcode)
    case Some(count) => count
    case None => 0
  }

  /** `illegal`: strict mode throws with the opcode and PC - 1; otherwise the opcode is tallied and costs `cycles`. */
  function Illegal(m: Machine, opcode: byte, cycles: nat, strict: bool): Stepped
  {
    if strict then Stepped(m, Err(Error(IllegalMessage(opcode, m.regs.pc))))
    else Stepped(m.(unknown := JsMap.Set(m.unknown, opcode, Count(m.unknown, opcode) + 1)), Ok(cycles))
  }

  function Completed(e: Executed): Stepped
  {
    Stepped(e.m, Ok(e.cycles))
  }

  /** The `switch` of `execute`, its cases grouped by kind; every other opcode is illegal. */
  function Switch(m: Machine, opcode: byte, strict: bool): Stepped
  {
    if opcode in CONTROL_OPCODES then Completed(Control(m, opcode))
    else if opcode in BRANCH_OPCODES then Completed(Branch(m, BranchTaken(m.regs.p, opcode)))
    else if opcode in FLAG_OPCODES then Completed(FlagOperation(m, opcode))
    else if opcode in INDEX_OPCODES then Completed(IndexOperation(m, opcode))
    else if opcode in IMPLIED_OPCODES then Completed(Implied(m, opcode))
    else if opcode in NOP_OPCODES then Completed(Nop(m, opcode))
    else Illegal(m, opcode, 2, strict)
  }

  /** `execute`: group 1, then group 2 unless it declines, then the switch. PC is past the opcode. */
  function Execute(m: Machine, opcode: byte, strict: bool): Stepped
  {
    if opcode % 4 == 1 then Completed(Group1(m, opcode))
    else if opcode % 4 == 2 && Group2(m, opcode).Some? then Completed(Group2(m, opcode).value)
    else Switch(m, opcode, strict)
  }

  /** The whole processor as `step` sees it: the machine and the bus's two interrupt latches. */
  datatype Cpu = Cpu(m: Machine, nmiPending: bool, irqPending: bool)

  /**
   * `step`: a pending NMI is serviced first; otherwise `pollIRQ` consumes the IRQ
   * latch and the IRQ is serviced only when I is clear; otherwise one instruction
   * runs and its cycles are added to `totalCycles`.
   */
  function Step(cpu: Cpu, strict: bool): (Cpu, Result<nat>)
  {
    var m := cpu.m;
    if cpu.nmiPending then (Cpu(Interrupt(m, 0xfffa, false), false, cpu.irqPending), Ok(7))
    else if cpu.irqPending && !m.regs.p.i then (Cpu(Interrupt(m, 0xfffe, false), false, false), Ok(7))
    else var s := Ran(m, strict); (Cpu(s.m, false, false), s.result)
  }

  /** One instruction: fetch the opcode at PC, execute it, then add its cycles to `totalCycles`. */
  function Ran(m: Machine, strict: bool): Stepped
  {
    var opcode := m.mem[m.regs.pc];
    var s := Execute(m.(regs := m.regs.(pc := Next(m.regs.pc, 1))), opcode, strict);
    match s.result
    case Ok(cycles) => Stepped(s.m.(regs := s.m.regs.(totalCycles := s.m.regs.totalCycles + cycles)), s.result)
    case Err(_) => s
  }

  /** `reset`: A = X = Y = 0, SP = 0xFD, P = U | I, PC from the vector at 0xFFFC, 7 cycles counted. */
  function Reset(mem: Memory): Registers
  {
    Registers(0, 0, 0, 0xfd, Unpack(0x24), Read16(mem, 0xfffc), 7)
  }

  /** `saveState()`: numbers as the fields hold them; the tally as its entries. */
  datatype CpuState = CpuState(a: int, x: int, y: int, sp: int, p: int, pc: int, totalCycles: int, unknownOpcodes: JsMap.Entries<int, int>)

  function Save(r: Registers, unknown: JsMap.Entries<int, int>): CpuState
  {
    CpuState(r.a, r.x, r.y, r.sp, Pack(r.p), r.pc, r.totalCycles, unknown)
  }

  /** `loadState`: every register masked to its width, U forced on, `totalCycles >>> 0`. */
  function LoadRegisters(state: CpuState): Registers
  {
    Registers(state.a % 0x100, state.x % 0x100, state.y % 0x100, state.sp % 0x100,
              Unpack(state.p % 0x100).(u := true), state.pc % 0x1_0000, state.totalCycles % 0x1_0000_0000)
  }
  // ---------------------------------------------------------------- properties of the instructions

  /** The stack slot arithmetic: SP moves modulo 256, so each push is undone by a pop. */
  lemma SlotsWrap(sp: byte)
    ensures ((sp - 1) % 0x100 + 1) % 0x100 == sp
    ensures (((sp - 1) % 0x100 - 1) % 0x100 + 1) % 0x100 == (sp - 1) % 0x100
    ensures ((sp - 2) % 0x100 + 1) % 0x100 == (sp - 1) % 0x100
  {
    if sp < 2 {
      assert (sp - 2) % 0x100 == sp + 0xfe;
      assert (sp - 1) % 0x100 == sp + 0xff || sp == 1;
    }
  }

  /** PHP pushes P with B and U set; only SP moves. */
  lemma PhpPushesBreakAndUnused(m: Machine)
    ensures var after := Php(m);
      && Unpack(after.mem[0x100 + m.regs.sp]) == m.regs.p.(b := true, u := true)
      && after.mem == m.mem[0x100 + m.regs.sp := after.mem[0x100 + m.regs.sp]]
      && after.regs == m.regs.(sp := (m.regs.sp - 1) % 0x100)
  {
    UnpackPack(m.regs.p.(b := true, u := true));
  }

  /** PLP takes the flags of the byte above SP, with B cleared and U set. */
  lemma PlpClearsBreakSetsUnused(m: Machine)
    ensures var sp := (m.regs.sp + 1) % 0x100;
      var after := Plp(m);
      && after.regs == m.regs.(sp := sp, p := Unpack(m.mem[0x100 + sp]).(b := false, u := true))
      && after.mem == m.mem
  {
  }

  /** PHP followed by PLP gives back every flag but B, which ends clear, and U, which ends set. */
  lemma PhpThenPlp(m: Machine)
    ensures Plp(Php(m)).regs == m.regs.(p := m.regs.p.(b := false, u := true))
  {
    PhpPushesBreakAndUnused(m);
    PlpClearsBreakSetsUnused(Php(m));
    SlotsWrap(m.regs.sp);
  }

  /** The interrupt frame: PC high, PC low, then P with B from `isBreak` and U set; I is set and the vector loaded. */
  lemma InterruptFrame(m: Machine, vector: word, isBreak: bool)
    ensures var sp := m.regs.sp;
      var after := Interrupt(m, vector, isBreak);
      && after.mem[0x100 + sp] == m.regs.pc / 0x100
      && after.mem[0x100 + (sp - 1) % 0x100] == m.regs.pc % 0x100
      && after.mem[0x100 + (sp - 2) % 0x100] == Pack(m.regs.p.(b := isBreak, u := true))
      && after.regs == m.regs.(sp := (sp - 3) % 0x100, p := m.regs.p.(i := true),
                               pc := Read16(after.mem, vector), totalCycles := m.regs.totalCycles + 7)
      && after.unknown == m.unknown
  {
    var sp: int := m.regs.sp;
    assert (sp - 1) % 0x100 != sp && (sp - 2) % 0x100 != sp && (sp - 2) % 0x100 != (sp - 1) % 0x100;
    assert ((sp - 1) % 0x100 - 1) % 0x100 == (sp - 2) % 0x100;
    assert ((sp - 2) % 0x100 - 1) % 0x100 == (sp - 3) % 0x100;
  }

  /** The flags an interrupt pushes read back as P with B from `isBreak` and U set. */
  lemma InterruptPushesFlags(m: Machine, vector: word, isBreak: bool)
    ensures Unpack(Interrupt(m, vector, isBreak).mem[0x100 + (m.regs.sp - 2) % 0x100]) == m.regs.p.(b := isBreak, u := true)
  {
    InterruptFrame(m, vector, isBreak);
    UnpackPack(m.regs.p.(b := isBreak, u := true));
  }

  /** RTI from a frame holding P and then PC above SP returns to that PC with P's flags (B clear, U set). */
  lemma RtiPulls(f: Machine, sp: byte, pc: word, p: Status)
    requires f.regs.sp == (sp - 3) % 0x100
    requires f.mem[0x100 + (sp - 2) % 0x100] == Pack(p)
    requires f.mem[0x100 + (sp - 1) % 0x100] == pc % 0x100 && f.mem[0x100 + sp] == pc / 0x100
    ensures Rti(f).regs == f.regs.(sp := sp, pc := pc, p := p.(b := false, u := true))
  {
    FrameSlots(sp);
    UnpackPack(p);
    DivModOf(pc, 0x100, pc / 0x100, pc % 0x100);
  }

  /** RTI after an interrupt returns to the interrupted PC with SP and P restored (B clear, U set). */
  lemma RtiAfterInterrupt(m: Machine, vector: word, isBreak: bool)
    ensures Rti(Interrupt(m, vector, isBreak)).regs
         == m.regs.(p := m.regs.p.(b := false, u := true), totalCycles := m.regs.totalCycles + 7)
  {
    InterruptFrame(m, vector, isBreak);
    RtiPulls(Interrupt(m, vector, isBreak), m.regs.sp, m.regs.pc, m.regs.p.(b := isBreak, u := true));
  }

  /** The three slots an interrupt frame fills, counted up from the SP it leaves. */
  lemma FrameSlots(sp: byte)
    ensures var s := (sp - 3) % 0x100;
      (s + 1) % 0x100 == (sp - 2) % 0x100 && (s + 2) % 0x100 == (sp - 1) % 0x100 && (s + 3) % 0x100 == sp
  {
    if sp < 3 {
      assert (sp - 3) % 0x100 == sp + 0xfd;
    }
  }

  /** RTS after JSR continues after the three-byte JSR instruction, with SP restored. */
  lemma RtsAfterJsr(m: Machine)
    ensures Rts(Jsr(m)).regs == m.regs.(pc := Next(m.regs.pc, 2))
  {
    var m1 := Advance(m, Absolute);
    var value := (m1.regs.pc - 1) % 0x1_0000;
    Pop16AfterPush16(m1, value);
    assert Next(value, 1) == m1.regs.pc;
  }

  /** JMP (ind) reads the target like `read16` except at a page end, where the high byte comes from the page's first byte. */
  lemma JmpIndirectPageWrap(m: Machine)
    ensures var pointer := Read16(m.mem, m.regs.pc);
      var target := JmpIndirect(m).regs.pc;
      && (pointer % 0x100 != 0xff ==> target == Read16(m.mem, pointer))
      && (pointer % 0x100 == 0xff ==> target == m.mem[pointer] as int + 0x100 * m.mem[pointer - 0xff] as int)
  {
  }

  /** Reads through (zp),Y cost one more cycle exactly when pointer and effective address lie on different pages. */
  lemma Group1IndirectYPageCross(m: Machine, opcode: byte)
    requires opcode % 4 == 1 && opcode / 0x20 != 4 && opcode / 4 % 8 == 4
    ensures var base := ZeroPagePointer(m.mem, m.mem[m.regs.pc]);
      var address := (base + m.regs.y) % 0x1_0000;
      Group1(m, opcode).cycles == 5 + (if base / 0x100 != address / 0x100 then 1 else 0)
  {
  }

  /** Reads through abs,Y and abs,X cost one more cycle exactly when base and effective address lie on different pages. */
  lemma Group1AbsolutePageCross(m: Machine, opcode: byte)
    requires opcode % 4 == 1 && opcode / 0x20 != 4
    requires var mode := opcode / 4 % 8; mode == 6 || mode == 7
    ensures var base := Read16(m.mem, m.regs.pc);
      var address := (base + if opcode / 4 % 8 == 7 then m.regs.x else m.regs.y) % 0x1_0000;
      Group1(m, opcode).cycles == 4 + (if base / 0x100 != address / 0x100 then 1 else 0)
  {
  }

  /** Stores never pay the page-cross cycle, and A is written to the effective address. */
  lemma Group1StoreCycles(m: Machine, opcode: byte)
    requires opcode % 4 == 1 && opcode / 0x20 == 4 && opcode != 0x89
    ensures var mode := opcode / 4 % 8;
      var address := Resolve(m.regs, m.mem, Group1Mode(mode)).address;
      && Group1(m, opcode).cycles == STORE_CYCLES[mode]
      && Group1(m, opcode).m.mem == m.mem[address := m.regs.a]
  {
  }

  /** STA abs,X and abs,Y cost 5 and STA (zp),Y costs 6, page cross or not. */
  lemma IndexedStoreCycles(m: Machine)
    ensures Group1(m, 0x9d).cycles == 5 && Group1(m, 0x99).cycles == 5 && Group1(m, 0x91).cycles == 6
  {
  }

  /** A branch not taken costs 2; taken, 3 on the same page as the PC after the operand and 4 on another. */
  lemma BranchCycles(m: Machine, condition: bool)
    ensures var previous := Next(m.regs.pc, 1);
      var e := Branch(m, condition);
      && (!condition ==> e.cycles == 2 && e.m.regs.pc == previous)
      && (condition ==> e.m.regs.pc == (previous + Signed(m.mem[m.regs.pc])) % 0x1_0000)
      && (condition ==> e.cycles == if previous / 0x100 == e.m.regs.pc / 0x100 then 3 else 4)
      && e.m.regs == m.regs.(pc := e.m.regs.pc) && e.m.mem == m.mem
    ensures -0x80 <= Signed(m.mem[m.regs.pc]) < 0x80
  {
  }

  /** As written, 0x89 spans three bytes, while the switch's own case for it and the corrected decode consume one operand byte. */
  lemma StoreImmediateLength(m: Machine)
    ensures StoreImmediateAsWritten(m).m.regs.pc == Next(m.regs.pc, 2)
    ensures Group1(m, 0x89).m.regs.pc == Next(m.regs.pc, 1)
    ensures Group1(m, 0x89) == Nop(m, 0x89)
  {
  }

  /** Group 2 declines, and the switch takes over, exactly for these operation and mode fields. */
  predicate Group2Decodes(opcode: byte)
  {
    var operation := opcode / 0x20;
    var mode := opcode / 4 % 8;
    if operation <= 3 then mode == 1 || mode == 2 || mode == 3 || mode == 5 || mode == 7
    else if operation == 4 then mode == 1 || mode == 3 || mode == 5
    else if operation == 5 then mode == 0 || mode == 1 || mode == 3 || mode == 5 || mode == 7
    else mode == 1 || mode == 3 || mode == 5 || mode == 7
  }

  lemma Group2Declines(m: Machine, opcode: byte)
    requires opcode % 4 == 2
    ensures Group2(m, opcode).Some? <==> Group2Decodes(opcode)
  {
  }

  /** The opcodes no decoder and no case of the switch accepts. */
  predicate Unsupported(opcode: byte)
  {
    && opcode % 4 != 1
    && !(opcode % 4 == 2 && Group2Decodes(opcode))
    && opcode !in CONTROL_OPCODES && opcode !in BRANCH_OPCODES && opcode !in FLAG_OPCODES
    && opcode !in INDEX_OPCODES && opcode !in IMPLIED_OPCODES && opcode !in NOP_OPCODES
  }

  /** In strict mode an unsupported opcode throws with the opcode and PC - 1, without counting it. */
  lemma UnsupportedStrict(m: Machine, opcode: byte)
    requires Unsupported(opcode)
    ensures Execute(m, opcode, true) == Stepped(m, Err(Error(IllegalMessage(opcode, m.regs.pc))))
  {
    if opcode % 4 == 2 {
      Group2Declines(m, opcode);
    }
  }

  /** Otherwise its count goes up by one, every other count stays, nothing else changes and it costs 2 cycles. */
  lemma UnsupportedTallied(m: Machine, opcode: byte, other: int)
    requires Unsupported(opcode)
    ensures var s := Execute(m, opcode, false);
      && s.result == Ok(2) && s.m.regs == m.regs && s.m.mem == m.mem
      && JsMap.Get(s.m.unknown, opcode) == Some(Count(m.unknown, opcode) + 1)
      && (other != opcode ==> JsMap.Get(s.m.unknown, other) == JsMap.Get(m.unknown, other))
  {
    if opcode % 4 == 2 {
      Group2Declines(m, opcode);
    }
    JsMap.GetAfterSet(m.unknown, opcode, Count(m.unknown, opcode) + 1, opcode);
    JsMap.GetAfterSet(m.unknown, opcode, Count(m.unknown, opcode) + 1, other);
  }

  /** Counting an opcode keeps the tally's keys distinct, so it stays a list a `Map` could produce. */
  lemma IllegalKeepsTallyDistinct(m: Machine, opcode: byte, cycles: nat, strict: bool)
    requires JsMap.DistinctKeys(m.unknown)
    ensures JsMap.DistinctKeys(Illegal(m, opcode, cycles, strict).m.unknown)
  {
    if !strict {
      JsMap.SetKeepsDistinct(m.unknown, opcode, Count(m.unknown, opcode) + 1);
    }
  }

  lemma IllegalMessageExample()
    ensures IllegalMessage(0x02, 0x8001) == "Unsupported opcode 0x2 at 0x8000"
  {
    assert JsString.HexString(0x8000) == "8000" by {
      assert JsString.HexString(0x8) == "8";
      assert JsString.HexString(0x80) == "80";
      assert JsString.HexString(0x800) == "800";
    }
  }

  /** A pending NMI is serviced before anything else and leaves the IRQ latch as it was. */
  lemma StepServicesNmiFirst(cpu: Cpu, strict: bool)
    requires cpu.nmiPending
    ensures Step(cpu, strict).1 == Ok(7)
    ensures Step(cpu, strict).0 == Cpu(Interrupt(cpu.m, 0xfffa, false), false, cpu.irqPending)
  {
  }

  /** With I clear a pending IRQ is serviced through 0xFFFE. */
  lemma StepServicesIrq(cpu: Cpu, strict: bool)
    requires !cpu.nmiPending && cpu.irqPending && !cpu.m.regs.p.i
    ensures Step(cpu, strict) == (Cpu(Interrupt(cpu.m, 0xfffe, false), false, false), Ok(7))
  {
  }

  /** With I set the IRQ latch is consumed and dropped: the step is the one taken with no IRQ pending. */
  lemma StepDropsMaskedIrq(cpu: Cpu, strict: bool)
    requires !cpu.nmiPending && cpu.irqPending && cpu.m.regs.p.i
    ensures Step(cpu, strict) == Step(cpu.(irqPending := false), strict)
    ensures !Step(cpu, strict).0.irqPending
  {
  }

  lemma Group2KeepsTotalCycles(m: Machine, opcode: byte)
    requires opcode % 4 == 2 && Group2(m, opcode).Some?
    ensures Group2(m, opcode).value.m.regs.totalCycles == m.regs.totalCycles
  {
  }

  lemma SwitchKeepsTotalCycles(m: Machine, opcode: byte, strict: bool)
    ensures Switch(m, opcode, strict).m.regs.totalCycles == m.regs.totalCycles
  {
  }

  /** No instruction touches `totalCycles`; `step` adds the cycles it returns. */
  lemma ExecuteKeepsTotalCycles(m: Machine, opcode: byte, strict: bool)
    ensures Execute(m, opcode, strict).m.regs.totalCycles == m.regs.totalCycles
  {
    if opcode % 4 == 2 && Group2(m, opcode).Some? {
      Group2KeepsTotalCycles(m, opcode);
    } else if opcode % 4 != 1 {
      SwitchKeepsTotalCycles(m, opcode, strict);
    }
  }

  /** `totalCycles` grows by exactly the cycles `step` returns. */
  lemma StepCountsCycles(cpu: Cpu, strict: bool)
    requires Step(cpu, strict).1.Ok?
    ensures Step(cpu, strict).0.m.regs.totalCycles == cpu.m.regs.totalCycles + Step(cpu, strict).1.value
  {
    var m := cpu.m;
    if !cpu.nmiPending && !(cpu.irqPending && !m.regs.p.i) {
      ExecuteKeepsTotalCycles(m.(regs := m.regs.(pc := Next(m.regs.pc, 1))), m.mem[m.regs.pc], strict);
    }
  }

  /** `loadState` of `saveState` gives back the registers, as long as U is set and the cycle count fits 32 bits. */
  lemma SaveLoadRoundTrip(r: Registers, unknown: JsMap.Entries<int, int>)
    requires r.p.u && r.totalCycles < 0x1_0000_0000
    ensures LoadRegisters(Save(r, unknown)) == r
  {
    assert Pack(r.p) % 0x100 == Pack(r.p);
    UnpackPack(r.p);
  }

  /** The tally survives the round trip through its entry list, order included. */
  lemma SaveLoadTally(r: Registers, unknown: JsMap.Entries<int, int>)
    requires JsMap.DistinctKeys(unknown)
    ensures JsMap.FromEntries(Save(r, unknown).unknownOpcodes) == unknown
  {
    JsMap.FromDistinctEntries(unknown);
  }

  /** `loadState` always leaves U set, whatever the snapshot's P. */
  lemma LoadForcesUnused(state: CpuState)
    ensures LoadRegisters(state).p.u
    ensures LoadRegisters(state).p.(u := false) == Unpack(state.p % 0x100).(u := false)
  {
  }
}
