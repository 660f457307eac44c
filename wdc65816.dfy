/**
 * The instruction semantics of src/core/snes/cpu65816.mjs as functions: what
 * one instruction does to the registers, the memory seen through the bus and
 * the unknown-opcode tally. The `CPU65816` class in module Cpu65816 is proved
 * to follow these functions; the lemmas here state what the source promises
 * about them.
 *
 * `P` is kept as its eight flags (`Pack` and `Unpack` convert, and are proved
 * inverse). The `switch` of `#execute` is the table `Decode`: each opcode's
 * operation, addressing helper and cycle counts, as the source lists them.
 * Where the source combines bit fields that cannot overlap with `|`
 * (`bank << 16 | address`, `low | high << 8`), the model adds.
 */
module Wdc65816 {
  import opened Bits
  import opened Wrappers
  import JsMap
  import JsString

  /** A 24-bit address: the bank in bits 16 to 23. */
  type long = x: int | 0 <= x < 0x100_0000

  /** The 16 MiB the processor addresses. */
  type Memory = s: seq<byte> | |s| == 0x100_0000 witness seq(0x100_0000, _ => 0)

  /** The flags of `P`: N V M X D I Z C from bit 7 down to bit 0. */
  datatype Flags = Flags(n: bool, v: bool, m: bool, x: bool, d: bool, i: bool, z: bool, c: bool)

  /** `A X Y SP D DBR PBR P E PC totalCycles`. */
  datatype Registers = Registers(a: word, x: word, y: word, sp: word, d: word, dbr: byte, pbr: byte,
                                 p: Flags, e: bool, pc: word, totalCycles: nat)

  /** What one instruction may change. `unknown` is the `unknownOpcodes` map as its entry list. */
  datatype Machine = Machine(regs: Registers, mem: Memory, unknown: JsMap.Entries<int, int>)

  /** An instruction that always completes, and the cycles it returns. */
  datatype Executed = Executed(m: Machine, cycles: nat)

  /** An instruction or step that may throw: the machine as the throw leaves it, and the cycles or the error. */
  datatype Stepped = Stepped(m: Machine, result: Result<nat>)

  // ---------------------------------------------------------------- status byte

  function Pack(f: Flags): (p: byte)
  {
    (if f.c then 0x01 else 0) + (if f.z then 0x02 else 0) + (if f.i then 0x04 else 0) + (if f.d then 0x08 else 0)
    + (if f.x then 0x10 else 0) + (if f.m then 0x20 else 0) + (if f.v then 0x40 else 0) + (if f.n then 0x80 else 0)
  }

  /** The flags of a status byte: flag `k` is `(P & (1 << k)) !== 0`. */
  function Unpack(p: byte): Flags
  {
    var p6 := Below(p, 0x80);
    var p5 := Below(p6, 0x40);
    var p4 := Below(p5, 0x20);
    var p3 := Below(p4, 0x10);
    var p2 := Below(p3, 0x08);
    var p1 := Below(p2, 0x04);
    var p0 := Below(p1, 0x02);
    Flags(p >= 0x80, p6 >= 0x40, p5 >= 0x20, p4 >= 0x10, p3 >= 0x08, p2 >= 0x04, p1 >= 0x02, p0 == 1)
  }

  lemma UnpackPack(f: Flags)
    ensures Unpack(Pack(f)) == f
  {
    var p1 := if f.c then 0x01 else 0;
    var p2 := p1 + if f.z then 0x02 else 0;
    var p3 := p2 + if f.i then 0x04 else 0;
    var p4 := p3 + if f.d then 0x08 else 0;
    var p5 := p4 + if f.x then 0x10 else 0;
    var p6 := p5 + if f.m then 0x20 else 0;
    var p7 := p6 + if f.v then 0x40 else 0;
    var p := Pack(f);
    assert p == p7 + if f.n then 0x80 else 0;
    assert Below(p, 0x80) == p7;
    assert Below(p7, 0x40) == p6;
    assert Below(p6, 0x20) == p5;
    assert Below(p5, 0x10) == p4;
    assert Below(p4, 0x08) == p3;
    assert Below(p3, 0x04) == p2;
    assert Below(p2, 0x02) == p1;
  }

  lemma PackUnpack(p: byte)
    ensures Pack(Unpack(p)) == p
  {
  }

  /** `P &= ~mask & 0xff` (REP). */
  function Cleared(p: Flags, mask: byte): Flags
  {
    var k := Unpack(mask);
    Flags(p.n && !k.n, p.v && !k.v, p.m && !k.m, p.x && !k.x, p.d && !k.d, p.i && !k.i, p.z && !k.z, p.c && !k.c)
  }

  /** `P |= mask & 0xff` (SEP). */
  function Raised(p: Flags, mask: byte): Flags
  {
    var k := Unpack(mask);
    Flags(p.n || k.n, p.v || k.v, p.m || k.m, p.x || k.x, p.d || k.d, p.i || k.i, p.z || k.z, p.c || k.c)
  }

  /** The byte PHP and BRK push: `P | (E ? 0x30 : 0x00)`. */
  function Pushed(r: Registers): byte
  {
    Pack(if r.e then r.p.(m := true, x := true) else r.p)
  }

  // ---------------------------------------------------------------- widths

  /** `memory8()`: the accumulator and memory operands are one byte wide. */
  predicate Memory8(r: Registers)
  {
    r.e || r.p.m
  }

  /** `index8()`: X and Y are one byte wide. */
  predicate Index8(r: Registers)
  {
    r.e || r.p.x
  }

  /** `mask + 1` of an 8-bit or a 16-bit operation. */
  function Limit(narrow: bool): nat
  {
    if narrow then 0x100 else 0x1_0000
  }

  /** `value & mask` for an 8-bit or a 16-bit operation (two's complement for negative values). */
  function Mask(x: int, narrow: bool): (r: nat)
    ensures r < Limit(narrow)
  {
    if narrow then x % 0x100 else x % 0x1_0000
  }

  /** The sign bit of an 8-bit or a 16-bit value. */
  function Top(narrow: bool): nat
  {
    if narrow then 0x80 else 0x8000
  }

  function Width(narrow: bool): nat
  {
    if narrow then 8 else 16
  }

  /** `setZN(value, width)`: Z from the masked value being 0, N from its sign bit. */
  function SetZN(p: Flags, value: int, narrow: bool): Flags
  {
    var masked := Mask(value, narrow);
    p.(z := masked == 0, n := masked >= Top(narrow))
  }

  /**
   * `normalizeFlagsAndRegisters`: emulation mode forces M and X, the 8-bit
   * index registers and a stack in page 1; X set truncates X and Y.
   */
  function Normalize(r: Registers): Registers
  {
    var r1 := if r.e then r.(p := r.p.(m := true, x := true), x := r.x % 0x100, y := r.y % 0x100, sp := r.sp % 0x100 + 0x100) else r;
    if r1.p.x then r1.(x := r1.x % 0x100, y := r1.y % 0x100) else r1
  }

  /** What `normalizeFlagsAndRegisters` establishes. */
  predicate Normalized(r: Registers)
  {
    && (r.e ==> r.p.m && r.p.x && 0x100 <= r.sp < 0x200)
    && (r.p.x ==> r.x < 0x100 && r.y < 0x100)
  }

  // ---------------------------------------------------------------- operand bytes and addressing

  /** The `k`-th byte after PC in the program bank: what the `k`-th `fetch8` reads. */
  function ProgramByte(r: Registers, mem: Memory, k: nat): byte
  {
    mem[r.pbr * 0x1_0000 + (r.pc + k) % 0x1_0000]
  }

  /** PC moved past `n` operand bytes; it wraps inside the program bank. */
  function Skip(r: Registers, n: nat): Registers
  {
    r.(pc := (r.pc + n) % 0x1_0000)
  }

  /** `fetch16`. */
  function Operand16(r: Registers, mem: Memory): word
  {
    ProgramByte(r, mem, 0) + 0x100 * ProgramByte(r, mem, 1)
  }

  /** `fetch24`. */
  function Operand24(r: Registers, mem: Memory): long
  {
    Operand16(r, mem) + 0x1_0000 * ProgramByte(r, mem, 2)
  }

  /** `x` or `y` as the addressing helpers use it: `index8() ? X & 0xff : X`. */
  function IndexRegister(r: Registers, useY: bool): word
  {
    var value := if useY then r.y else r.x;
    if Index8(r) then value % 0x100 else value
  }

  /** Two bytes of bank 0, the second at the next address modulo 2^16 (`read16Bank0` and the pointer reads). */
  function Bank0Word(mem: Memory, pointer: word): word
  {
    mem[pointer] as int + 0x100 * mem[(pointer + 1) % 0x1_0000] as int
  }

  /** A three-byte pointer in bank 0. */
  function LongPointer(mem: Memory, pointer: word): long
  {
    Bank0Word(mem, pointer) + 0x1_0000 * mem[(pointer + 2) % 0x1_0000] as int
  }

  /** `D + offset` modulo 2^16, for the direct-page offset that follows the opcode. */
  function DirectPointer(r: Registers, mem: Memory): word
  {
    (r.d + ProgramByte(r, mem, 0)) % 0x1_0000
  }

  /** The stack pointer as stack-relative addressing adds to: page 1 in emulation mode. */
  function StackBase(r: Registers): word
  {
    if r.e then 0x100 + r.sp % 0x100 else r.sp
  }

  /** The `addr…` helpers, named after their source counterparts. */
  datatype Mode = Direct | DirectX | DirectY | DirectIndirect | DirectIndirectY | DirectIndirectLong | DirectIndirectLongY
                | Absolute | AbsoluteX | AbsoluteY | Long | LongX | StackRelativeIndirectY

  /** The operand bytes each helper fetches. */
  function Length(mode: Mode): nat
  {
    match mode
    case Absolute | AbsoluteX | AbsoluteY => 2
    case Long | LongX => 3
    case _ => 1
  }

  /** The modes whose 16-bit accesses the source makes with `linear16`: the long ones. */
  predicate Linear(mode: Mode)
  {
    mode.Long? || mode.LongX? || mode.DirectIndirectLong? || mode.DirectIndirectLongY?
  }

  /** The effective address of each helper; `r.pc` points at the first operand byte. */
  function Address(r: Registers, mem: Memory, mode: Mode): long
  {
    match mode
    case Direct => DirectPointer(r, mem)
    case DirectX => (r.d + ProgramByte(r, mem, 0) + IndexRegister(r, false)) % 0x1_0000
    case DirectY => (r.d + ProgramByte(r, mem, 0) + IndexRegister(r, true)) % 0x1_0000
    case DirectIndirect => r.dbr * 0x1_0000 + Bank0Word(mem, DirectPointer(r, mem))
    case DirectIndirectY => (r.dbr * 0x1_0000 + Bank0Word(mem, DirectPointer(r, mem)) + IndexRegister(r, true)) % 0x100_0000
    case DirectIndirectLong => LongPointer(mem, DirectPointer(r, mem))
    case DirectIndirectLongY => (LongPointer(mem, DirectPointer(r, mem)) + IndexRegister(r, true)) % 0x100_0000
    case Absolute => r.dbr * 0x1_0000 + Operand16(r, mem)
    case AbsoluteX => (r.dbr * 0x1_0000 + Operand16(r, mem) + IndexRegister(r, false)) % 0x100_0000
    case AbsoluteY => (r.dbr * 0x1_0000 + Operand16(r, mem) + IndexRegister(r, true)) % 0x100_0000
    case Long => Operand24(r, mem)
    case LongX => (Operand24(r, mem) + IndexRegister(r, false)) % 0x100_0000
    case StackRelativeIndirectY =>
      (r.dbr * 0x1_0000 + Bank0Word(mem, (StackBase(r) + ProgramByte(r, mem, 0)) % 0x1_0000) + IndexRegister(r, true)) % 0x100_0000
  }

  // ---------------------------------------------------------------- data access

  /** `read16BankWrapped`: the high byte comes from the next address inside the same bank. */
  function Read16Wrapped(mem: Memory, address: long): word
  {
    var bank := address / 0x1_0000 * 0x1_0000;
    mem[bank + address % 0x1_0000] as int + 0x100 * mem[bank + (address + 1) % 0x1_0000] as int
  }

  /** `read16Linear`: the high byte comes from the next 24-bit address, crossing banks. */
  function Read16Linear(mem: Memory, address: long): word
  {
    mem[address] as int + 0x100 * mem[(address + 1) % 0x100_0000] as int
  }

  function Write16Wrapped(mem: Memory, address: long, value: word): Memory
  {
    var bank := address / 0x1_0000 * 0x1_0000;
    mem[bank + address % 0x1_0000 := value % 0x100][bank + (address + 1) % 0x1_0000 := value / 0x100]
  }

  function Write16Linear(mem: Memory, address: long, value: word): Memory
  {
    mem[address := value % 0x100][(address + 1) % 0x100_0000 := value / 0x100]
  }

  /** `readDataByWidth` and `readIndexByWidth`: one byte, or two bank-wrapped or linear. */
  function ReadSized(mem: Memory, address: long, narrow: bool, linear: bool): word
  {
    if narrow then mem[address] else if linear then Read16Linear(mem, address) else Read16Wrapped(mem, address)
  }

  /** `writeByWidth` and `writeIndexByWidth`: the value masked to the width. */
  function WriteSized(mem: Memory, address: long, value: word, narrow: bool, linear: bool): Memory
  {
    if narrow then mem[address := value % 0x100]
    else if linear then Write16Linear(mem, address, value)
    else Write16Wrapped(mem, address, value)
  }

  /** Where an operand comes from: the bytes after the opcode, or an addressing helper. */
  datatype Source = Immediate | At(mode: Mode)

  /** `readImmediateByWidth()` or `readDataByWidth(addr…())`: the registers with PC past the operand, and the value. */
  function Fetch(r: Registers, mem: Memory, source: Source, narrow: bool): (Registers, word)
  {
    match source
    case Immediate => if narrow then (Skip(r, 1), ProgramByte(r, mem, 0) as word) else (Skip(r, 2), Operand16(r, mem))
    case At(mode) => (Skip(r, Length(mode)), ReadSized(mem, Address(r, mem, mode), narrow, Linear(mode)))
  }

  // ---------------------------------------------------------------- stack

  /** `push8`: in emulation mode the stack lives in page 1 and SP wraps inside it; otherwise SP is a 16-bit pointer into bank 0. */
  function Push8(m: Machine, value: byte): Machine
  {
    var r := m.regs;
    if r.e then m.(mem := m.mem[0x100 + r.sp % 0x100 := value], regs := r.(sp := (r.sp - 1) % 0x100 + 0x100))
    else m.(mem := m.mem[r.sp := value], regs := r.(sp := (r.sp - 1) % 0x1_0000))
  }

  /** `pop8`: SP moves up first, then the byte it points at is read. */
  function Pop8(m: Machine): (Machine, byte)
  {
    var r := m.regs;
    if r.e then
      var sp := (r.sp + 1) % 0x100 + 0x100;
      (m.(regs := r.(sp := sp)), m.mem[0x100 + sp % 0x100])
    else
      var sp := (r.sp + 1) % 0x1_0000;
      (m.(regs := r.(sp := sp)), m.mem[sp])
  }

  /** `push16`: the high byte first, so the low byte ends at the lower address. */
  function Push16(m: Machine, value: word): Machine
  {
    Push8(Push8(m, value / 0x100), value % 0x100)
  }

  function Pop16(m: Machine): (Machine, word)
  {
    var (m1, low) := Pop8(m);
    var (m2, high) := Pop8(m1);
    (m2, low + 0x100 * high)
  }

  /** One byte or two, as the register's width says (`pushAByWidth` and its twins). */
  function PushSized(m: Machine, value: word, narrow: bool): Machine
  {
    if narrow then Push8(m, value % 0x100) else Push16(m, value)
  }

  function PopSized(m: Machine, narrow: bool): (Machine, word)
  {
    if narrow then var (m1, value) := Pop8(m); (m1, value as word) else Pop16(m)
  }

  // ---------------------------------------------------------------- registers

  datatype Reg = A | X | Y

  function Value(r: Registers, reg: Reg): word
  {
    match reg
    case A => r.a
    case X => r.x
    case Y => r.y
  }

  /** `accumulatorValue()`. */
  function Accumulator(r: Registers): word
  {
    if Memory8(r) then r.a % 0x100 else r.a
  }

  /** `(A & 0xff00) | low`. */
  function WithLow(a: word, low: byte): word
  {
    a / 0x100 * 0x100 + low
  }

  /** `loadA`: an 8-bit accumulator takes only the low byte and keeps bits 8-15. The transfers and PLA into A do the same. */
  function LoadA(r: Registers, value: word): Registers
  {
    if Memory8(r) then r.(a := WithLow(r.a, value % 0x100), p := SetZN(r.p, value % 0x100, true))
    else r.(a := value, p := SetZN(r.p, value, false))
  }

  /** `loadX` and `loadY`: masked to the index width. The transfers and pulls into X or Y do the same. */
  function LoadIndex(r: Registers, useY: bool, value: word): Registers
  {
    var narrow := Index8(r);
    var masked := Mask(value, narrow);
    var r1 := if useY then r.(y := masked) else r.(x := masked);
    r1.(p := SetZN(r.p, masked, narrow))
  }

  function Load(r: Registers, reg: Reg, value: word): Registers
  {
    if reg == A then LoadA(r, value) else LoadIndex(r, reg == Y, value)
  }

  // ---------------------------------------------------------------- arithmetic and logic

  datatype AluOp = ORA | AND | EOR | ADC | SBC | CMP | LDA | BIT

  /** `|`, `&` and `^` of ORA, AND and EOR on the low `w` bits. */
  function Combine(op: AluOp, a: nat, b: nat, w: nat): (r: nat)
    ensures r < Pow2(w)
  {
    match op
    case ORA => Or(a, b, w)
    case AND => And(a, b, w)
    case _ => Xor(a, b, w)
  }

  /** `ora`, `and`, `eor`. */
  function Logical(r: Registers, op: AluOp, value: word): Registers
  {
    Pow2Values();
    if Memory8(r) then
      var result := Combine(op, r.a % 0x100, value % 0x100, 8);
      r.(a := WithLow(r.a, result), p := SetZN(r.p, result, true))
    else
      var result := Combine(op, r.a, value, 16);
      r.(a := result, p := SetZN(r.p, result, false))
  }

  /** `(~(left ^ right) & (left ^ result) & top) !== 0`: the operands agree in sign and the result does not. */
  function AddOverflow(left: nat, right: nat, result: nat, narrow: bool): bool
  {
    var w := Width(narrow);
    Bit(And(Not(Xor(left, right, w), w), Xor(left, result, w), w), w - 1)
  }

  /** `((left ^ right) & (left ^ result) & top) !== 0`: the operands differ in sign and the result differs from `left`. */
  function SubtractOverflow(left: nat, right: nat, result: nat, narrow: bool): bool
  {
    var w := Width(narrow);
    Bit(And(Xor(left, right, w), Xor(left, result, w), w), w - 1)
  }

  /** The digits of an operation of either width. */
  function Digits(narrow: bool): nat
  {
    if narrow then 2 else 4
  }

  /**
   * The digit loop of `adcBcd`, lowest digit first: a digit sum above 9 gets 6
   * added, and a sum above 15 carries into the next digit. The result and the
   * carry out of the top digit.
   */
  function DecimalAdd(left: nat, right: nat, carry: nat, digits: nat): (nat, nat)
  {
    if digits == 0 then (0, carry)
    else
      var nibble := left % 0x10 + right % 0x10 + carry;
      var adjusted := if nibble > 9 then nibble + 6 else nibble;
      var (rest, carryOut) := DecimalAdd(left / 0x10, right / 0x10, if adjusted > 0xf then 1 else 0, digits - 1);
      (adjusted % 0x10 + 0x10 * rest, carryOut)
  }

  /** The digit loop of `sbcBcd`: a digit that goes negative gets 6 subtracted and borrows from the next. */
  function DecimalSubtract(left: nat, right: nat, borrow: nat, digits: nat): (nat, nat)
  {
    if digits == 0 then (0, borrow)
    else
      var nibble := left % 0x10 - right % 0x10 - borrow;
      var adjusted := if nibble < 0 then nibble - 6 else nibble;
      var (rest, borrowOut) := DecimalSubtract(left / 0x10, right / 0x10, if nibble < 0 then 1 else 0, digits - 1);
      (adjusted % 0x10 + 0x10 * rest, borrowOut)
  }

  /** `adcBcd(left, right, carryIn, width)`: the masked result and whether a carry remains. */
  function AdcBcd(left: nat, right: nat, carryIn: nat, narrow: bool): (r: (nat, bool))
    ensures r.0 < Limit(narrow)
  {
    var (result, carry) := DecimalAdd(left, right, carryIn, Digits(narrow));
    (Mask(result, narrow), carry != 0)
  }

  /** `sbcBcd(left, right, borrowIn, width)`: the masked result and whether no borrow remains. */
  function SbcBcd(left: nat, right: nat, borrowIn: nat, narrow: bool): (r: (nat, bool))
    ensures r.0 < Limit(narrow)
  {
    var (result, borrow) := DecimalSubtract(left, right, borrowIn, Digits(narrow));
    (Mask(result, narrow), borrow == 0)
  }

  /** `adc`: binary, or digit by digit when D is set; V always comes from the binary sum. */
  function Adc(r: Registers, value: word): Registers
  {
    var narrow := Memory8(r);
    var limit := Limit(narrow);
    var left := Mask(r.a, narrow);
    var right := Mask(value, narrow);
    var carryIn := if r.p.c then 1 else 0;
    var sum := left + right + carryIn;
    var binary := Mask(sum, narrow);
    var (result, carryOut) := if r.p.d then AdcBcd(left, right, carryIn, narrow) else (binary, sum > limit - 1);
    var p := r.p.(c := carryOut, v := AddOverflow(left, right, binary, narrow));
    r.(a := if narrow then WithLow(r.a, result % 0x100) else result, p := SetZN(p, result, narrow))
  }

  /** `sbc`: binary with borrow `1 - C`, or digit by digit when D is set; V always comes from the binary difference. */
  function Sbc(r: Registers, value: word): Registers
  {
    var narrow := Memory8(r);
    var limit := Limit(narrow);
    var left := Mask(r.a, narrow);
    var right := Mask(value, narrow);
    var borrowIn := if r.p.c then 0 else 1;
    var difference := left - right - borrowIn;
    var binary := Mask(difference, narrow);
    var (result, carryOut) := if r.p.d then SbcBcd(left, right, borrowIn, narrow) else (binary, difference >= 0);
    var p := r.p.(c := carryOut, v := SubtractOverflow(left, right, binary, narrow));
    r.(a := if narrow then WithLow(r.a, result % 0x100) else result, p := SetZN(p, result, narrow))
  }

  /** `compare(left, right, width)`: C when left >= right, Z and N from the masked difference. */
  function Compare(p: Flags, left: word, right: word, narrow: bool): Flags
  {
    SetZN(p.(c := left >= right), Mask(left - right, narrow), narrow)
  }

  /** `bitMemory`: Z from `A & value`, N and V copied from the operand's top two bits. */
  function BitTest(r: Registers, value: word): Flags
  {
    var narrow := Memory8(r);
    var limit := Limit(narrow);
    var data := Mask(value, narrow);
    Pow2Values();
    r.p.(z := And(Mask(r.a, narrow), data, Width(narrow)) == 0, n := data >= Top(narrow), v := (data / (Top(narrow) / 2)) % 2 == 1)
  }

  /** The operations of the accumulator-width `switch` cases that read an operand. */
  function Operate(r: Registers, op: AluOp, value: word): Registers
  {
    match op
    case ORA | AND | EOR => Logical(r, op, value)
    case ADC => Adc(r, value)
    case SBC => Sbc(r, value)
    case CMP => r.(p := Compare(r.p, Accumulator(r), value, Memory8(r)))
    case LDA => LoadA(r, value)
    case BIT => r.(p := BitTest(r, value))
  }

  datatype IndexOp = LDX | LDY | CPX | CPY

  /** `loadX`, `loadY`, `compareX`, `compareY`. */
  function OperateIndex(r: Registers, op: IndexOp, value: word): Registers
  {
    match op
    case LDX => LoadIndex(r, false, value)
    case LDY => LoadIndex(r, true, value)
    case CPX => r.(p := Compare(r.p, IndexRegister(r, false), value, Index8(r)))
    case CPY => r.(p := Compare(r.p, IndexRegister(r, true), value, Index8(r)))
  }

  datatype ModifyOp = TSB | TRB | ASL | ROL | LSR | ROR | INC | DEC

  /**
   * The read-modify-write operations on a value of the given width: the new
   * flags and the value written back (`tsb`, `trb`, the shifts and rotates,
   * `incrementMemory`, `decrementMemory` and their accumulator forms).
   */
  function Modified(r: Registers, op: ModifyOp, value: word, narrow: bool): (result: (Flags, word))
    requires value < Limit(narrow)
    ensures result.1 < Limit(narrow)
  {
    var limit := Limit(narrow);
    var carry := if r.p.c then 1 else 0;
    match op
    case TSB => Tested(r, true, value, narrow)
    case TRB => Tested(r, false, value, narrow)
    case ASL => var result := Mask(value * 2, narrow); (SetZN(r.p.(c := value >= Top(narrow)), result, narrow), result)
    case ROL => var result := Mask(value * 2 + carry, narrow); (SetZN(r.p.(c := value >= Top(narrow)), result, narrow), result)
    case LSR => var result := value / 2; (SetZN(r.p.(c := value % 2 == 1), result, narrow), result)
    case ROR => var result := value / 2 + carry * Top(narrow); (SetZN(r.p.(c := value % 2 == 1), result, narrow), result)
    case INC => var result := Mask(value + 1, narrow); (SetZN(r.p, result, narrow), result)
    case DEC => var result := Mask(value - 1, narrow); (SetZN(r.p, result, narrow), result)
  }

  /** TSB (`setting`) and TRB: Z from `A & value`, then A's bits set in, or cleared from, the operand. */
  function Tested(r: Registers, setting: bool, value: word, narrow: bool): (result: (Flags, word))
    requires value < Limit(narrow)
    ensures result.1 < Limit(narrow)
  {
    var w := Width(narrow);
    var a := Mask(r.a, narrow);
    Pow2Values();
    (r.p.(z := And(a, value, w) == 0), if setting then Or(value, a, w) else And(value, Not(a, w), w))
  }

  /** `toSigned8`. */
  function Signed8(x: byte): int
  {
    if x >= 0x80 then x - 0x100 else x
  }

  /** The 16-bit displacement of BRL and PER as a signed number. */
  function Signed16(x: word): int
  {
    if x >= 0x8000 then x - 0x1_0000 else x
  }

  // ---------------------------------------------------------------- instructions

  datatype FlagName = NFlag | VFlag | ZFlag | CFlag | IFlag

  function FlagValue(p: Flags, flag: FlagName): bool
  {
    match flag
    case NFlag => p.n
    case VFlag => p.v
    case ZFlag => p.z
    case CFlag => p.c
    case IFlag => p.i
  }

  /** `setFlag(bit, enabled)`. */
  function SetFlagTo(p: Flags, flag: FlagName, value: bool): Flags
  {
    match flag
    case NFlag => p.(n := value)
    case VFlag => p.(v := value)
    case ZFlag => p.(z := value)
    case CFlag => p.(c := value)
    case IFlag => p.(i := value)
  }

  /** A branch's condition: BRA always, the others on one flag being set or clear. */
  datatype Condition = Always | When(flag: FlagName, value: bool)

  predicate Holds(p: Flags, condition: Condition)
  {
    match condition
    case Always => true
    case When(flag, value) => FlagValue(p, flag) == value
  }

  /**
   * One case of the `switch` of `execute`. The width-dependent instructions carry
   * the cycles they take with an 8-bit and with a 16-bit register.
   */
  datatype Instr =
    | Accumulate(op: AluOp, source: Source, cycles8: nat, cycles16: nat)
    | IndexOperate(iop: IndexOp, source: Source, cycles8: nat, cycles16: nat)
    | StoreAccumulator(mode: Mode, zero: bool, cycles8: nat, cycles16: nat)
    | StoreIndexReg(mode: Mode, useY: bool, cycles8: nat, cycles16: nat)
    | ModifyAt(mop: ModifyOp, mode: Mode, cycles8: nat, cycles16: nat)
    | ModifyA(mop: ModifyOp)
    | Copy(src: Reg, dst: Reg)
    | StepIndex(useY: bool, up: bool)
    | TransferToStack | TransferToDirect | ExchangeBytes | ExchangeEmulation | NoOperation
    | AssignFlag(flag: FlagName, value: bool)
    | ResetFlags | SetFlags
    | PushStatus | PushDirect | PushProgramBank | PushDataBank | PushReg(reg: Reg)
    | PullStatus | PullDataBank | PullReg(reg: Reg)
    | BranchIf(condition: Condition) | BranchLong | PushRelative
    | JumpAbsolute | JumpLong | JumpIndirectLong | JumpSubroutine | JumpSubroutineLong
    | ReturnSubroutine | ReturnLong | Break | ReturnFromInterrupt | Move(increment: bool)

  /** LDA, ORA, AND, EOR, ADC, SBC, CMP and BIT: read an operand of the accumulator's width and operate. */
  function Alu(m: Machine, op: AluOp, source: Source, cycles8: nat, cycles16: nat): Executed
  {
    var (r1, value) := Fetch(m.regs, m.mem, source, Memory8(m.regs));
    var r2 := Operate(r1, op, value);
    Executed(m.(regs := r2), if Memory8(r2) then cycles8 else cycles16)
  }

  /** LDX, LDY, CPX and CPY: read an operand of the index width (`readImmediateIndexByWidth`, `readIndexByWidth`). */
  function IndexAlu(m: Machine, op: IndexOp, source: Source, cycles8: nat, cycles16: nat): Executed
  {
    var (r1, value) := Fetch(m.regs, m.mem, source, Index8(m.regs));
    var r2 := OperateIndex(r1, op, value);
    Executed(m.(regs := r2), if Index8(r2) then cycles8 else cycles16)
  }

  /** STA and STZ: `writeByWidth(address, accumulatorValue() or 0, linear16)`. */
  function Store(m: Machine, mode: Mode, zero: bool, cycles8: nat, cycles16: nat): Executed
  {
    var address := Address(m.regs, m.mem, mode);
    var r1 := Skip(m.regs, Length(mode));
    var value := if zero then 0 else Accumulator(r1);
    Executed(Machine(r1, WriteSized(m.mem, address, value, Memory8(r1), Linear(mode)), m.unknown),
             if Memory8(r1) then cycles8 else cycles16)
  }

  /** STX and STY: `writeIndexByWidth(address, X or Y)`. */
  function StoreIndex(m: Machine, mode: Mode, useY: bool, cycles8: nat, cycles16: nat): Executed
  {
    var address := Address(m.regs, m.mem, mode);
    var r1 := Skip(m.regs, Length(mode));
    var value := if useY then r1.y else r1.x;
    Executed(Machine(r1, WriteSized(m.mem, address, value, Index8(r1), false), m.unknown),
             if Index8(r1) then cycles8 else cycles16)
  }

  /** TSB, TRB, the shifts and rotates, INC and DEC on memory: always bank-wrapped when 16 bits wide. */
  function ModifyMemory(m: Machine, op: ModifyOp, mode: Mode, cycles8: nat, cycles16: nat): Executed
  {
    var narrow := Memory8(m.regs);
    var address := Address(m.regs, m.mem, mode);
    var r1 := Skip(m.regs, Length(mode));
    var (p, result) := Modified(r1, op, ReadSized(m.mem, address, narrow, false), narrow);
    Executed(Machine(r1.(p := p), WriteSized(m.mem, address, result, narrow, false), m.unknown),
             if narrow then cycles8 else cycles16)
  }

  /** ASL A, ROL A, LSR A, ROR A, INC A and DEC A: an 8-bit accumulator keeps its high byte. */
  function ModifyAccumulator(m: Machine, op: ModifyOp): Executed
  {
    var r := m.regs;
    var narrow := Memory8(r);
    var (p, result) := Modified(r, op, Mask(r.a, narrow), narrow);
    Executed(m.(regs := r.(a := if narrow then WithLow(r.a, result) else result, p := p)), if narrow then 2 else 3)
  }

  /** TAX, TAY, TXA, TYA, TXY, TYX: the destination's width decides. */
  function Transfer(m: Machine, src: Reg, dst: Reg): Executed
  {
    Executed(m.(regs := Load(m.regs, dst, Value(m.regs, src))), 2)
  }

  /** INX, INY, DEX, DEY: modulo the index width. */
  function IncrementIndex(m: Machine, useY: bool, up: bool): Executed
  {
    var r := m.regs;
    var narrow := Index8(r);
    var value := Mask((if useY then r.y else r.x) + (if up then 1 else -1), narrow);
    var r1 := if useY then r.(y := value) else r.(x := value);
    Executed(m.(regs := r1.(p := SetZN(r.p, value, narrow))), 2)
  }

  /** TCS: in emulation mode only the low byte, in page 1. */
  function Tcs(m: Machine): Executed
  {
    var r := m.regs;
    Executed(m.(regs := r.(sp := if r.e then r.a % 0x100 + 0x100 else r.a)), 2)
  }

  /** TCD: all sixteen bits, flags from all sixteen. */
  function Tcd(m: Machine): Executed
  {
    var r := m.regs;
    Executed(m.(regs := r.(d := r.a, p := SetZN(r.p, r.a, false))), 2)
  }

  /** XBA: swap the bytes of A; flags from the new low byte. */
  function Xba(m: Machine): Executed
  {
    var r := m.regs;
    var a := r.a % 0x100 * 0x100 + r.a / 0x100;
    Executed(m.(regs := r.(a := a, p := SetZN(r.p, r.a / 0x100, true))), 3)
  }

  /** XCE: swap C and E, then normalise. */
  function Xce(m: Machine): Executed
  {
    var r := m.regs;
    Executed(m.(regs := Normalize(r.(p := r.p.(c := r.e), e := r.p.c))), 2)
  }

  /** CLC, SEC, CLI, SEI. */
  function SetFlag(m: Machine, flag: FlagName, value: bool): Executed
  {
    Executed(m.(regs := m.regs.(p := SetFlagTo(m.regs.p, flag, value))), 2)
  }

  /** REP #mask. */
  function Rep(m: Machine): Executed
  {
    var r := m.regs;
    var r1 := Skip(r, 1);
    Executed(m.(regs := Normalize(r1.(p := Cleared(r.p, ProgramByte(r, m.mem, 0))))), 3)
  }

  /** SEP #mask. */
  function Sep(m: Machine): Executed
  {
    var r := m.regs;
    var r1 := Skip(r, 1);
    Executed(m.(regs := Normalize(r1.(p := Raised(r.p, ProgramByte(r, m.mem, 0))))), 3)
  }

  function Php(m: Machine): Executed
  {
    Executed(Push8(m, Pushed(m.regs)), 3)
  }

  function Phd(m: Machine): Executed
  {
    Executed(Push16(m, m.regs.d), 4)
  }

  function Phk(m: Machine): Executed
  {
    Executed(Push8(m, m.regs.pbr), 3)
  }

  function Phb(m: Machine): Executed
  {
    Executed(Push8(m, m.regs.dbr), 3)
  }

  /** The width of a register: the accumulator's for A, the index width for X and Y. */
  predicate Narrow(r: Registers, reg: Reg)
  {
    if reg == A then Memory8(r) else Index8(r)
  }

  /** PHA, PHX, PHY. */
  function PushRegister(m: Machine, reg: Reg): Executed
  {
    var narrow := Narrow(m.regs, reg);
    Executed(PushSized(m, Value(m.regs, reg), narrow), if narrow then 3 else 4)
  }

  /** PLA, PLX, PLY. */
  function PullRegister(m: Machine, reg: Reg): Executed
  {
    var narrow := Narrow(m.regs, reg);
    var (m1, value) := PopSized(m, narrow);
    Executed(m1.(regs := Load(m1.regs, reg, value)), if narrow then 4 else 5)
  }

  /** PLP: the whole status byte, then normalise. */
  function Plp(m: Machine): Executed
  {
    var (m1, status) := Pop8(m);
    Executed(m1.(regs := Normalize(m1.regs.(p := Unpack(status)))), 4)
  }

  /** PLB. */
  function Plb(m: Machine): Executed
  {
    var (m1, bank) := Pop8(m);
    Executed(m1.(regs := m1.regs.(dbr := bank, p := SetZN(m1.regs.p, bank, true))), 4)
  }

  /** `branch(condition)`: the displacement byte is always consumed; 3 cycles when taken. */
  function Branch(m: Machine, condition: Condition): Executed
  {
    var r := m.regs;
    var r1 := Skip(r, 1);
    if Holds(r.p, condition) then Executed(m.(regs := r1.(pc := (r1.pc + Signed8(ProgramByte(r, m.mem, 0))) % 0x1_0000)), 3)
    else Executed(m.(regs := r1), 2)
  }

  /** BRL: a 16-bit displacement, wrapping inside the bank. */
  function Brl(m: Machine): Executed
  {
    var r := m.regs;
    var r1 := Skip(r, 2);
    Executed(m.(regs := r1.(pc := (r1.pc + Signed16(Operand16(r, m.mem))) % 0x1_0000)), 4)
  }

  /** PER: pushes PC plus the displacement. */
  function Per(m: Machine): Executed
  {
    var r := m.regs;
    var r1 := Skip(r, 2);
    Executed(Push16(m.(regs := r1), (r1.pc + Signed16(Operand16(r, m.mem))) % 0x1_0000), 6)
  }

  function Jmp(m: Machine): Executed
  {
    Executed(m.(regs := m.regs.(pc := Operand16(m.regs, m.mem))), 3)
  }

  function Jml(m: Machine): Executed
  {
    var target := Operand24(m.regs, m.mem);
    Executed(m.(regs := m.regs.(pbr := target / 0x1_0000, pc := target % 0x1_0000)), 4)
  }

  /** JML [abs]: the three-byte pointer is read from bank 0. */
  function JmlIndirect(m: Machine): Executed
  {
    var pointer := Operand16(m.regs, m.mem);
    Executed(m.(regs := m.regs.(pc := Bank0Word(m.mem, pointer), pbr := m.mem[(pointer + 2) % 0x1_0000])), 6)
  }

  /** JSR: pushes the address of its own last byte. */
  function Jsr(m: Machine): Executed
  {
    var target := Operand16(m.regs, m.mem);
    var r1 := Skip(m.regs, 2);
    var m1 := Push16(m.(regs := r1), (r1.pc - 1) % 0x1_0000);
    Executed(m1.(regs := m1.regs.(pc := target)), 6)
  }

  /** JSL: pushes PBR, then the address of its own last byte. */
  function Jsl(m: Machine): Executed
  {
    var target := Operand24(m.regs, m.mem);
    var r1 := Skip(m.regs, 3);
    var m1 := Push8(m.(regs := r1), r1.pbr);
    var m2 := Push16(m1, (r1.pc - 1) % 0x1_0000);
    Executed(m2.(regs := m2.regs.(pbr := target / 0x1_0000, pc := target % 0x1_0000)), 8)
  }

  function Rts(m: Machine): Executed
  {
    var (m1, address) := Pop16(m);
    Executed(m1.(regs := m1.regs.(pc := (address + 1) % 0x1_0000)), 6)
  }

  function Rtl(m: Machine): Executed
  {
    var (m1, address) := Pop16(m);
    var (m2, bank) := Pop8(m1);
    Executed(m2.(regs := m2.regs.(pc := (address + 1) % 0x1_0000, pbr := bank)), 6)
  }

  /** The common tail of interrupts and BRK: I set, D cleared, PBR 0, PC from the bank-0 vector. */
  function Vectored(m: Machine, vector: word): Machine
  {
    m.(regs := m.regs.(p := m.regs.p.(i := true, d := false), pbr := 0, pc := Bank0Word(m.mem, vector)))
  }

  /**
   * `interrupt(isNMI)`: emulation mode pushes PC and P with bit 4 clear, 7
   * cycles; native mode pushes PBR, PC and P, 8 cycles.
   */
  function Interrupt(m: Machine, nmi: bool): Executed
  {
    var r := m.regs;
    if r.e then
      var m1 := Push8(Push16(m, r.pc), Pack(r.p.(x := false)));
      Executed(Vectored(m1, if nmi then 0xfffa else 0xfffe), 7)
    else
      var m1 := Push8(Push16(Push8(m, r.pbr), r.pc), Pack(r.p));
      Executed(Vectored(m1, if nmi then 0xffea else 0xffee), 8)
  }

  /** `brk` as written: PC + 1 and P are pushed in either mode, PBR never. */
  function BrkAsWritten(m: Machine): Executed
  {
    var r := m.regs;
    var m1 := Push8(Push16(m, (r.pc + 1) % 0x1_0000), Pushed(r));
    Executed(Vectored(m1, if r.e then 0xfffe else 0xffe6), if r.e then 7 else 8)
  }

  /** BRK with native mode pushing PBR first, as `interrupt` does and as RTI expects. */
  function Brk(m: Machine): Executed
  {
    var r := m.regs;
    if r.e then BrkAsWritten(m)
    else
      var m1 := Push8(Push16(Push8(m, r.pbr), (r.pc + 1) % 0x1_0000), Pushed(r));
      Executed(Vectored(m1, 0xffe6), 8)
  }

  /** `rti`: P, then PC, then in native mode PBR; emulation mode forces M and X. */
  function Rti(m: Machine): Executed
  {
    var (m1, status) := Pop8(m);
    var (m2, pc) := Pop16(m1);
    if m.regs.e then
      Executed(m2.(regs := Normalize(m2.regs.(p := Unpack(status).(m := true, x := true), pc := pc))), 6)
    else
      var (m3, bank) := Pop8(m2);
      Executed(m3.(regs := Normalize(m3.regs.(p := Unpack(status), pc := pc, pbr := bank))), 7)
  }

  /** The byte one MVN or MVP step copies: from `srcBank:X` to `destBank:Y`. */
  function MoveByte(mem: Memory, destBank: byte, srcBank: byte, x: word, y: word): Memory
  {
    mem[destBank * 0x1_0000 + y := mem[srcBank * 0x1_0000 + x]]
  }

  /**
   * `blockMove(increment)`: one byte from `srcBank:X` to `destBank:Y`, X and Y
   * stepped and A counted down modulo 2^16 whatever the widths, DBR set to
   * the destination bank, and PC rewound onto the instruction until A wraps to
   * 0xFFFF.
   */
  function BlockMove(m: Machine, increment: bool): Executed
  {
    var r := m.regs;
    var destBank := ProgramByte(r, m.mem, 0);
    var srcBank := ProgramByte(r, m.mem, 1);
    var r1 := Skip(r, 2);
    var mem := MoveByte(m.mem, destBank, srcBank, r.x, r.y);
    var delta := if increment then 1 else -1;
    var a := (r.a - 1) % 0x1_0000;
    var r2 := r1.(x := (r.x + delta) % 0x1_0000, y := (r.y + delta) % 0x1_0000, a := a, dbr := destBank,
                  pc := if a != 0xffff then (r1.pc - 3) % 0x1_0000 else r1.pc);
    Executed(Machine(r2, mem, m.unknown), 7)
  }

  /** The instructions that read or write an operand of the accumulator's or the index width. */
  predicate DataOp(instr: Instr)
  {
    instr.Accumulate? || instr.IndexOperate? || instr.StoreAccumulator? || instr.StoreIndexReg? || instr.ModifyAt? || instr.ModifyA?
  }

  /** The instructions that only move values between registers or set a flag. */
  predicate RegisterOp(instr: Instr)
  {
    instr.Copy? || instr.StepIndex? || instr.TransferToStack? || instr.TransferToDirect? || instr.ExchangeBytes?
    || instr.NoOperation? || instr.AssignFlag?
  }

  /** The instructions that can change E, M or X, and so end in `normalizeFlagsAndRegisters`. */
  predicate ModeOp(instr: Instr)
  {
    instr.ExchangeEmulation? || instr.ResetFlags? || instr.SetFlags? || instr.PullStatus?
  }

  /** The pushes and pulls of registers. */
  predicate StackOp(instr: Instr)
  {
    instr.PushStatus? || instr.PushDirect? || instr.PushProgramBank? || instr.PushDataBank? || instr.PushReg?
    || instr.PullDataBank? || instr.PullReg? || instr.PushRelative?
  }

  /** The branches and jumps. */
  predicate FlowOp(instr: Instr)
  {
    instr.BranchIf? || instr.BranchLong? || instr.JumpAbsolute? || instr.JumpLong? || instr.JumpIndirectLong?
  }

  /** Calls, returns and BRK. */
  predicate CallOp(instr: Instr)
  {
    instr.JumpSubroutine? || instr.JumpSubroutineLong? || instr.ReturnSubroutine? || instr.ReturnLong?
    || instr.Break? || instr.ReturnFromInterrupt?
  }

  /** What each case of the `switch` does; PC is past the opcode. The cases are grouped by kind. */
  function Perform(m: Machine, instr: Instr): Executed
  {
    if DataOp(instr) then PerformData(m, instr)
    else if RegisterOp(instr) then PerformRegister(m, instr)
    else if ModeOp(instr) then PerformMode(m, instr)
    else if StackOp(instr) then PerformStack(m, instr)
    else if FlowOp(instr) then PerformFlow(m, instr)
    else if CallOp(instr) then PerformCall(m, instr)
    else BlockMove(m, instr.increment)
  }

  function PerformData(m: Machine, instr: Instr): Executed
    requires DataOp(instr)
  {
    match instr
    case Accumulate(op, source, cycles8, cycles16) => Alu(m, op, source, cycles8, cycles16)
    case IndexOperate(op, source, cycles8, cycles16) => IndexAlu(m, op, source, cycles8, cycles16)
    case StoreAccumulator(mode, zero, cycles8, cycles16) => Store(m, mode, zero, cycles8, cycles16)
    case StoreIndexReg(mode, useY, cycles8, cycles16) => StoreIndex(m, mode, useY, cycles8, cycles16)
    case ModifyAt(op, mode, cycles8, cycles16) => ModifyMemory(m, op, mode, cycles8, cycles16)
    case ModifyA(op) => ModifyAccumulator(m, op)
  }

  function PerformRegister(m: Machine, instr: Instr): Executed
    requires RegisterOp(instr)
  {
    match instr
    case Copy(src, dst) => Transfer(m, src, dst)
    case StepIndex(useY, up) => IncrementIndex(m, useY, up)
    case TransferToStack => Tcs(m)
    case TransferToDirect => Tcd(m)
    case ExchangeBytes => Xba(m)
    case NoOperation => Executed(m, 2)
    case AssignFlag(flag, value) => SetFlag(m, flag, value)
  }

  function PerformMode(m: Machine, instr: Instr): Executed
    requires ModeOp(instr)
  {
    match instr
    case ExchangeEmulation => Xce(m)
    case ResetFlags => Rep(m)
    case SetFlags => Sep(m)
    case PullStatus => Plp(m)
  }

  function PerformStack(m: Machine, instr: Instr): Executed
    requires StackOp(instr)
  {
    match instr
    case PushStatus => Php(m)
    case PushDirect => Phd(m)
    case PushProgramBank => Phk(m)
    case PushDataBank => Phb(m)
    case PushReg(reg) => PushRegister(m, reg)
    case PullDataBank => Plb(m)
    case PullReg(reg) => PullRegister(m, reg)
    case PushRelative => Per(m)
  }

  function PerformFlow(m: Machine, instr: Instr): Executed
    requires FlowOp(instr)
  {
    match instr
    case BranchIf(condition) => Branch(m, condition)
    case BranchLong => Brl(m)
    case JumpAbsolute => Jmp(m)
    case JumpLong => Jml(m)
    case JumpIndirectLong => JmlIndirect(m)
  }

  function PerformCall(m: Machine, instr: Instr): Executed
    requires CallOp(instr)
  {
    match instr
    case JumpSubroutine => Jsr(m)
    case JumpSubroutineLong => Jsl(m)
    case ReturnSubroutine => Rts(m)
    case ReturnLong => Rtl(m)
    case Break => Brk(m)
    case ReturnFromInterrupt => Rti(m)
  }

  /** The cases of the `switch` of `execute`; `None` for every opcode it sends to `illegal`. */
  function Decode(opcode: byte): Option<Instr>
  {
    match opcode
    case 0x00 => Some(Break)
    case 0x04 => Some(ModifyAt(TSB, Direct, 5, 7))
    case 0x05 => Some(Accumulate(ORA, At(Direct), 3, 4))
    case 0x06 => Some(ModifyAt(ASL, Direct, 5, 7))
    case 0x07 => Some(Accumulate(ORA, At(DirectIndirectLong), 5, 6))
    case 0x08 => Some(PushStatus)
    case 0x09 => Some(Accumulate(ORA, Immediate, 2, 3))
    case 0x0a => Some(ModifyA(ASL))
    case 0x0b => Some(PushDirect)
    case 0x0c => Some(ModifyAt(TSB, Absolute, 6, 8))
    case 0x0d => Some(Accumulate(ORA, At(Absolute), 4, 5))
    case 0x0e => Some(ModifyAt(ASL, Absolute, 6, 8))
    case 0x10 => Some(BranchIf(When(NFlag, false)))
    case 0x14 => Some(ModifyAt(TRB, Direct, 5, 7))
    case 0x15 => Some(Accumulate(ORA, At(DirectX), 4, 5))
    case 0x16 => Some(ModifyAt(ASL, DirectX, 6, 8))
    case 0x17 => Some(Accumulate(ORA, At(DirectIndirectLongY), 6, 7))
    case 0x18 => Some(AssignFlag(CFlag, false))
    case 0x19 => Some(Accumulate(ORA, At(AbsoluteY), 4, 5))
    case 0x1a => Some(ModifyA(INC))
    case 0x1b => Some(TransferToStack)
    case 0x1c => Some(ModifyAt(TRB, Absolute, 6, 8))
    case 0x1d => Some(Accumulate(ORA, At(AbsoluteX), 4, 5))
    case 0x1e => Some(ModifyAt(ASL, AbsoluteX, 7, 9))
    case 0x1f => Some(Accumulate(ORA, At(LongX), 5, 6))
    case 0x20 => Some(JumpSubroutine)
    case 0x22 => Some(JumpSubroutineLong)
    case 0x24 => Some(Accumulate(BIT, At(Direct), 3, 4))
    case 0x25 => Some(Accumulate(AND, At(Direct), 3, 4))
    case 0x26 => Some(ModifyAt(ROL, Direct, 5, 7))
    case 0x27 => Some(Accumulate(AND, At(DirectIndirectLong), 5, 6))
    case 0x28 => Some(PullStatus)
    case 0x29 => Some(Accumulate(AND, Immediate, 2, 3))
    case 0x2a => Some(ModifyA(ROL))
    case 0x2c => Some(Accumulate(BIT, At(Absolute), 4, 5))
    case 0x2d => Some(Accumulate(AND, At(Absolute), 4, 5))
    case 0x2e => Some(ModifyAt(ROL, Absolute, 6, 8))
    case 0x2f => Some(Accumulate(AND, At(Long), 5, 6))
    case 0x30 => Some(BranchIf(When(NFlag, true)))
    case 0x34 => Some(Accumulate(BIT, At(DirectX), 4, 5))
    case 0x35 => Some(Accumulate(AND, At(DirectX), 4, 5))
    case 0x36 => Some(ModifyAt(ROL, DirectX, 6, 8))
    case 0x37 => Some(Accumulate(AND, At(DirectIndirectLongY), 6, 7))
    case 0x38 => Some(AssignFlag(CFlag, true))
    case 0x39 => Some(Accumulate(AND, At(AbsoluteY), 4, 5))
    case 0x3a => Some(ModifyA(DEC))
    case 0x3c => Some(Accumulate(BIT, At(AbsoluteX), 4, 5))
    case 0x3d => Some(Accumulate(AND, At(AbsoluteX), 4, 5))
    case 0x3e => Some(ModifyAt(ROL, AbsoluteX, 7, 9))
    case 0x3f => Some(Accumulate(AND, At(LongX), 5, 6))
    case 0x40 => Some(ReturnFromInterrupt)
    case 0x44 => Some(Move(false))
    case 0x45 => Some(Accumulate(EOR, At(Direct), 3, 4))
    case 0x46 => Some(ModifyAt(LSR, Direct, 5, 7))
    case 0x47 => Some(Accumulate(EOR, At(DirectIndirectLong), 5, 6))
    case 0x48 => Some(PushReg(A))
    case 0x49 => Some(Accumulate(EOR, Immediate, 2, 3))
    case 0x4a => Some(ModifyA(LSR))
    case 0x4b => Some(PushProgramBank)
    case 0x4c => Some(JumpAbsolute)
    case 0x4d => Some(Accumulate(EOR, At(Absolute), 4, 5))
    case 0x4e => Some(ModifyAt(LSR, Absolute, 6, 8))
    case 0x50 => Some(BranchIf(When(VFlag, false)))
    case 0x54 => Some(Move(true))
    case 0x55 => Some(Accumulate(EOR, At(DirectX), 4, 5))
    case 0x56 => Some(ModifyAt(LSR, DirectX, 6, 8))
    case 0x57 => Some(Accumulate(EOR, At(DirectIndirectLongY), 6, 7))
    case 0x58 => Some(AssignFlag(IFlag, false))
    case 0x59 => Some(Accumulate(EOR, At(AbsoluteY), 4, 5))
    case 0x5a => Some(PushReg(Y))
    case 0x5b => Some(TransferToDirect)
    case 0x5c => Some(JumpLong)
    case 0x5d => Some(Accumulate(EOR, At(AbsoluteX), 4, 5))
    case 0x5e => Some(ModifyAt(LSR, AbsoluteX, 7, 9))
    case 0x60 => Some(ReturnSubroutine)
    case 0x62 => Some(PushRelative)
    case 0x64 => Some(StoreAccumulator(Direct, true, 3, 4))
    case 0x65 => Some(Accumulate(ADC, At(Direct), 3, 4))
    case 0x66 => Some(ModifyAt(ROR, Direct, 5, 7))
    case 0x67 => Some(Accumulate(ADC, At(DirectIndirectLong), 5, 6))
    case 0x68 => Some(PullReg(A))
    case 0x69 => Some(Accumulate(ADC, Immediate, 2, 3))
    case 0x6a => Some(ModifyA(ROR))
    case 0x6b => Some(ReturnLong)
    case 0x6d => Some(Accumulate(ADC, At(Absolute), 4, 5))
    case 0x6e => Some(ModifyAt(ROR, Absolute, 6, 8))
    case 0x6f => Some(Accumulate(ADC, At(Long), 5, 6))
    case 0x70 => Some(BranchIf(When(VFlag, true)))
    case 0x74 => Some(StoreAccumulator(DirectX, true, 4, 5))
    case 0x75 => Some(Accumulate(ADC, At(DirectX), 4, 5))
    case 0x76 => Some(ModifyAt(ROR, DirectX, 6, 8))
    case 0x77 => Some(Accumulate(ADC, At(DirectIndirectLongY), 6, 7))
    case 0x78 => Some(AssignFlag(IFlag, true))
    case 0x79 => Some(Accumulate(ADC, At(AbsoluteY), 4, 5))
    case 0x7a => Some(PullReg(Y))
    case 0x7d => Some(Accumulate(ADC, At(AbsoluteX), 4, 5))
    case 0x7e => Some(ModifyAt(ROR, AbsoluteX, 7, 9))
    case 0x7f => Some(Accumulate(ADC, At(LongX), 5, 6))
    case 0x80 => Some(BranchIf(Always))
    case 0x82 => Some(BranchLong)
    case 0x84 => Some(StoreIndexReg(Direct, true, 3, 4))
    case 0x85 => Some(StoreAccumulator(Direct, false, 3, 4))
    case 0x86 => Some(StoreIndexReg(Direct, false, 3, 4))
    case 0x87 => Some(StoreAccumulator(DirectIndirectLong, false, 5, 6))
    case 0x88 => Some(StepIndex(true, false))
    case 0x8a => Some(Copy(X, A))
    case 0x8b => Some(PushDataBank)
    case 0x8c => Some(StoreIndexReg(Absolute, true, 4, 5))
    case 0x8d => Some(StoreAccumulator(Absolute, false, 4, 5))
    case 0x8e => Some(StoreIndexReg(Absolute, false, 4, 5))
    case 0x8f => Some(StoreAccumulator(Long, false, 5, 6))
    case 0x90 => Some(BranchIf(When(CFlag, false)))
    case 0x92 => Some(StoreAccumulator(DirectIndirect, false, 5, 6))
    case 0x94 => Some(StoreIndexReg(DirectX, true, 4, 5))
    case 0x95 => Some(StoreAccumulator(DirectX, false, 4, 5))
    case 0x97 => Some(StoreAccumulator(DirectIndirectLongY, false, 6, 7))
    case 0x98 => Some(Copy(Y, A))
    case 0x99 => Some(StoreAccumulator(AbsoluteY, false, 5, 6))
    case 0x9b => Some(Copy(X, Y))
    case 0x9c => Some(StoreAccumulator(Absolute, true, 4, 5))
    case 0x9d => Some(StoreAccumulator(AbsoluteX, false, 5, 6))
    case 0x9e => Some(StoreAccumulator(AbsoluteX, true, 5, 6))
    case 0x9f => Some(StoreAccumulator(LongX, false, 5, 6))
    case 0xa0 => Some(IndexOperate(LDY, Immediate, 2, 3))
    case 0xa2 => Some(IndexOperate(LDX, Immediate, 2, 3))
    case 0xa4 => Some(IndexOperate(LDY, At(Direct), 3, 4))
    case 0xa5 => Some(Accumulate(LDA, At(Direct), 3, 4))
    case 0xa6 => Some(IndexOperate(LDX, At(Direct), 3, 4))
    case 0xa7 => Some(Accumulate(LDA, At(DirectIndirectLong), 5, 6))
    case 0xa8 => Some(Copy(A, Y))
    case 0xa9 => Some(Accumulate(LDA, Immediate, 2, 3))
    case 0xaa => Some(Copy(A, X))
    case 0xab => Some(PullDataBank)
    case 0xac => Some(IndexOperate(LDY, At(Absolute), 4, 5))
    case 0xad => Some(Accumulate(LDA, At(Absolute), 4, 5))
    case 0xae => Some(IndexOperate(LDX, At(Absolute), 4, 5))
    case 0xaf => Some(Accumulate(LDA, At(Long), 5, 6))
    case 0xb0 => Some(BranchIf(When(CFlag, true)))
    case 0xb1 => Some(Accumulate(LDA, At(DirectIndirectY), 5, 6))
    case 0xb2 => Some(Accumulate(LDA, At(DirectIndirect), 5, 6))
    case 0xb3 => Some(Accumulate(LDA, At(StackRelativeIndirectY), 7, 8))
    case 0xb4 => Some(IndexOperate(LDY, At(DirectX), 4, 5))
    case 0xb5 => Some(Accumulate(LDA, At(DirectX), 4, 5))
    case 0xb6 => Some(IndexOperate(LDX, At(DirectY), 4, 5))
    case 0xb7 => Some(Accumulate(LDA, At(DirectIndirectLongY), 6, 7))
    case 0xb9 => Some(Accumulate(LDA, At(AbsoluteY), 4, 5))
    case 0xbb => Some(Copy(Y, X))
    case 0xbc => Some(IndexOperate(LDY, At(AbsoluteX), 4, 5))
    case 0xbd => Some(Accumulate(LDA, At(AbsoluteX), 4, 5))
    case 0xbe => Some(IndexOperate(LDX, At(AbsoluteY), 4, 5))
    case 0xbf => Some(Accumulate(LDA, At(LongX), 5, 6))
    case 0xc0 => Some(IndexOperate(CPY, Immediate, 2, 3))
    case 0xc2 => Some(ResetFlags)
    case 0xc4 => Some(IndexOperate(CPY, At(Direct), 3, 4))
    case 0xc5 => Some(Accumulate(CMP, At(Direct), 3, 4))
    case 0xc6 => Some(ModifyAt(DEC, Direct, 5, 7))
    case 0xc8 => Some(StepIndex(true, true))
    case 0xc9 => Some(Accumulate(CMP, Immediate, 2, 3))
    case 0xca => Some(StepIndex(false, false))
    case 0xcc => Some(IndexOperate(CPY, At(Absolute), 4, 5))
    case 0xcd => Some(Accumulate(CMP, At(Absolute), 4, 5))
    case 0xce => Some(ModifyAt(DEC, Absolute, 6, 8))
    case 0xcf => Some(Accumulate(CMP, At(Long), 5, 6))
    case 0xd0 => Some(BranchIf(When(ZFlag, false)))
    case 0xd5 => Some(Accumulate(CMP, At(DirectX), 4, 5))
    case 0xd6 => Some(ModifyAt(DEC, DirectX, 6, 8))
    case 0xd7 => Some(Accumulate(CMP, At(DirectIndirectLongY), 6, 7))
    case 0xd9 => Some(Accumulate(CMP, At(AbsoluteY), 4, 5))
    case 0xda => Some(PushReg(X))
    case 0xdc => Some(JumpIndirectLong)
    case 0xdd => Some(Accumulate(CMP, At(AbsoluteX), 4, 5))
    case 0xde => Some(ModifyAt(DEC, AbsoluteX, 7, 9))
    case 0xdf => Some(Accumulate(CMP, At(LongX), 5, 6))
    case 0xe0 => Some(IndexOperate(CPX, Immediate, 2, 3))
    case 0xe2 => Some(SetFlags)
    case 0xe4 => Some(IndexOperate(CPX, At(Direct), 3, 4))
    case 0xe5 => Some(Accumulate(SBC, At(Direct), 3, 4))
    case 0xe6 => Some(ModifyAt(INC, Direct, 5, 7))
    case 0xe7 => Some(Accumulate(SBC, At(DirectIndirectLong), 5, 6))
    case 0xe8 => Some(StepIndex(false, true))
    case 0xe9 => Some(Accumulate(SBC, Immediate, 2, 3))
    case 0xea => Some(NoOperation)
    case 0xeb => Some(ExchangeBytes)
    case 0xec => Some(IndexOperate(CPX, At(Absolute), 4, 5))
    case 0xed => Some(Accumulate(SBC, At(Absolute), 4, 5))
    case 0xee => Some(ModifyAt(INC, Absolute, 6, 8))
    case 0xf0 => Some(BranchIf(When(ZFlag, true)))
    case 0xf5 => Some(Accumulate(SBC, At(DirectX), 4, 5))
    case 0xf6 => Some(ModifyAt(INC, DirectX, 6, 8))
    case 0xf7 => Some(Accumulate(SBC, At(DirectIndirectLongY), 6, 7))
    case 0xf9 => Some(Accumulate(SBC, At(AbsoluteY), 4, 5))
    case 0xfa => Some(PullReg(X))
    case 0xfb => Some(ExchangeEmulation)
    case 0xfd => Some(Accumulate(SBC, At(AbsoluteX), 4, 5))
    case 0xfe => Some(ModifyAt(INC, AbsoluteX, 7, 9))
    case 0xff => Some(Accumulate(SBC, At(LongX), 5, 6))
    case _ => None
  }

  /** Two hexadecimal digits at least (`toString(16).padStart(2, '0')`). */
  function Hex(n: nat, width: nat): string
  {
    JsString.PadStart(JsString.HexString(n), width, '0')
  }

  /** The message strict mode throws: the opcode, the program bank and the opcode's own address. */
  function IllegalMessage(opcode: byte, r: Registers): string
  {
    "Unsupported opcode 0x" + Hex(opcode, 2) + " at " + Hex(r.pbr, 2) + ":" + Hex((r.pc - 1) % 0x1_0000, 4) + "."
  }

  /** The count of `opcode` in the tally, 0 when absent (`?? 0`). */
  function Count(unknown: JsMap.Entries<int, int>, opcode: int): int
  {
    match JsMap.Get(unknown, opcode)
    case Some(count) => count
    case None => 0
  }

  /** `illegal`: the opcode is tallied first, in either mode; then strict mode throws and otherwise it costs 2 cycles. */
  function Illegal(m: Machine, opcode: byte, strict: bool): Stepped
  {
    var m1 := m.(unknown := JsMap.Set(m.unknown, opcode, Count(m.unknown, opcode) + 1));
    if strict then Stepped(m1, Err(Error(IllegalMessage(opcode, m.regs)))) else Stepped(m1, Ok(2))
  }

  /** `execute(opcode)`. */
  function Execute(m: Machine, opcode: byte, strict: bool): Stepped
  {
    match Decode(opcode)
    case None => Illegal(m, opcode, strict)
    case Some(instr) => var e := Perform(m, instr); Stepped(e.m, Ok(e.cycles))
  }

  /** `totalCycles += cycles`. */
  function Counted(m: Machine, cycles: nat): Machine
  {
    m.(regs := m.regs.(totalCycles := m.regs.totalCycles + cycles))
  }

  /** One instruction: fetch the opcode at PBR:PC, execute it, then count its cycles. */
  function Ran(m: Machine, strict: bool): Stepped
  {
    var s := Execute(m.(regs := Skip(m.regs, 1)), ProgramByte(m.regs, m.mem, 0), strict);
    match s.result
    case Ok(cycles) => Stepped(Counted(s.m, cycles), s.result)
    case Err(_) => s
  }

  /** The whole processor as `step` sees it: the machine and the bus's two interrupt latches. */
  datatype Cpu = Cpu(m: Machine, nmiPending: bool, irqPending: bool)

  /**
   * `step`: a pending NMI first; otherwise, only while I is clear, `pollIRQ`
   * consumes the IRQ latch and a pending IRQ is serviced; otherwise one
   * instruction runs (and the IRQ latch, polled or not, is as it was: a
   * poll reached here found it clear). The cycles are added to `totalCycles`.
   */
  function Step(cpu: Cpu, strict: bool): (Cpu, Result<nat>)
  {
    var m := cpu.m;
    if cpu.nmiPending then
      var e := Interrupt(m, true);
      (Cpu(Counted(e.m, e.cycles), false, cpu.irqPending), Ok(e.cycles))
    else if !m.regs.p.i && cpu.irqPending then
      var e := Interrupt(m, false);
      (Cpu(Counted(e.m, e.cycles), false, false), Ok(e.cycles))
    else
      var s := Ran(m, strict);
      (Cpu(s.m, false, cpu.irqPending), s.result)
  }

  /** `reset`: emulation mode, SP 0x1FF, P = I | M | X, PC from the vector at 0xFFFC, 7 cycles counted. */
  function Reset(mem: Memory): Registers
  {
    Registers(0, 0, 0, 0x1ff, 0, 0, 0, Flags(false, false, true, true, false, true, false, false), true, Bank0Word(mem, 0xfffc), 7)
  }

  /** `saveState()`: numbers as the fields hold them; the tally as its entries. */
  datatype CpuState = CpuState(a: int, x: int, y: int, sp: int, d: int, dbr: int, pbr: int, p: int, e: bool, pc: int,
                               totalCycles: int, unknownOpcodes: JsMap.Entries<int, int>)

  function Save(r: Registers, unknown: JsMap.Entries<int, int>): CpuState
  {
    CpuState(r.a, r.x, r.y, r.sp, r.d, r.dbr, r.pbr, Pack(r.p), r.e, r.pc, r.totalCycles, unknown)
  }

  /** `loadState`: each register masked to its width, `totalCycles >>> 0`, then normalised. */
  function LoadRegisters(state: CpuState): Registers
  {
    Normalize(Registers(state.a % 0x1_0000, state.x % 0x1_0000, state.y % 0x1_0000, state.sp % 0x1_0000, state.d % 0x1_0000,
                        state.dbr % 0x100, state.pbr % 0x100, Unpack(state.p % 0x100), state.e, state.pc % 0x1_0000,
                        state.totalCycles % 0x1_0000_0000))
  }

  // ---------------------------------------------------------------- properties: widths and normalisation

  /** Normalising establishes the invariant and changes only M, X, the index registers and SP. */
  lemma NormalizeEstablishes(r: Registers)
    ensures Normalized(Normalize(r))
    ensures Normalize(r).(p := r.p, x := r.x, y := r.y, sp := r.sp) == r
    ensures Normalize(r).p.(m := r.p.m, x := r.p.x) == r.p
    ensures Normalize(r).x % 0x100 == r.x % 0x100 && Normalize(r).y % 0x100 == r.y % 0x100
    ensures Normalize(r).sp % 0x100 == r.sp % 0x100
  {
  }

  /** Normalising changes nothing exactly when the invariant already holds. */
  lemma NormalizeFixes(r: Registers)
    ensures Normalize(r) == r <==> Normalized(r)
  {
    NormalizeEstablishes(r);
  }

  /** With the invariant, the width-masked index registers are the registers themselves. */
  lemma NormalizedIndex(r: Registers, useY: bool)
    requires Normalized(r)
    ensures IndexRegister(r, useY) == if useY then r.y else r.x
  {
  }

  /** `reset` leaves emulation mode with 8-bit registers and the invariant holding. */
  lemma ResetNormalized(mem: Memory)
    ensures Normalized(Reset(mem)) && Memory8(Reset(mem)) && Index8(Reset(mem))
    ensures Pack(Reset(mem).p) == 0x34
  {
  }

  // ---------------------------------------------------------------- properties: memory access

  /** A sized write reads back as the value masked to the width, through the same kind of access. */
  lemma ReadAfterWrite(mem: Memory, address: long, value: word, narrow: bool, linear: bool)
    ensures ReadSized(WriteSized(mem, address, value, narrow, linear), address, narrow, linear) == Mask(value, narrow)
  {
    DivModOf(value, 0x100, value / 0x100, value % 0x100);
    if !narrow && !linear {
      var bank := address / 0x1_0000 * 0x1_0000;
      DivModOf(address, 0x1_0000, address / 0x1_0000, address % 0x1_0000);
      assert bank + address % 0x1_0000 == address;
      assert bank + (address + 1) % 0x1_0000 != address;
    }
  }

  /** A bank-wrapped 16-bit access never leaves the address's bank. */
  lemma WrappedStaysInBank(mem: Memory, address: long, value: word, other: long)
    requires other / 0x1_0000 != address / 0x1_0000
    ensures Write16Wrapped(mem, address, value)[other] == mem[other]
  {
    var bank := address / 0x1_0000;
    DivModOf(bank * 0x1_0000 + address % 0x1_0000, 0x1_0000, bank, address % 0x1_0000);
    DivModOf(bank * 0x1_0000 + (address + 1) % 0x1_0000, 0x1_0000, bank, (address + 1) % 0x1_0000);
  }

  /** At the last address of a bank the wrapped read takes its high byte from the bank's first address and the linear one from the next bank. */
  lemma BankEdge(mem: Memory, bank: byte)
    ensures Read16Wrapped(mem, bank * 0x1_0000 + 0xffff) == mem[bank * 0x1_0000 + 0xffff] as int + 0x100 * mem[bank * 0x1_0000] as int
    ensures Read16Linear(mem, bank * 0x1_0000 + 0xffff) == mem[bank * 0x1_0000 + 0xffff] as int + 0x100 * mem[(bank + 1) * 0x1_0000 % 0x100_0000] as int
  {
    DivModOf(bank * 0x1_0000 + 0xffff, 0x1_0000, bank, 0xffff);
  }

  // ---------------------------------------------------------------- properties: the stack

  /** Emulation mode keeps SP in page 1 and writes only page 1; a pushed byte lands at 0x100 | SP. */
  lemma Push8InPageOne(m: Machine, value: byte, a: long)
    requires m.regs.e
    requires a < 0x100 || a >= 0x200
    ensures 0x100 <= Push8(m, value).regs.sp < 0x200
    ensures Push8(m, value).mem[a] == m.mem[a]
    ensures Push8(m, value).mem[0x100 + m.regs.sp % 0x100] == value
  {
  }

  /** In emulation mode a pop reads page 1 and leaves SP there. */
  lemma Pop8InPageOne(m: Machine)
    requires m.regs.e
    ensures 0x100 <= Pop8(m).0.regs.sp < 0x200
    ensures Pop8(m).1 == m.mem[0x100 + (m.regs.sp + 1) % 0x100]
  {
  }

  /** `pop8` after `push8` returns the byte and restores SP (to its page-1 form in emulation mode); only SP moves. */
  lemma PopAfterPush(m: Machine, value: byte)
    ensures Pop8(Push8(m, value)).1 == value
    ensures Pop8(Push8(m, value)).0.regs == m.regs.(sp := StackBase(m.regs))
  {
    var r := m.regs.(sp := StackBase(m.regs));
    var mb := m.(regs := r);
    PushFromBase(m, value);
    DownZero(r);
    PushAt(mb, r, 0, value);
    PopAt(Push8(mb, value), r, 0);
  }

  /** The same for the 16-bit forms: the word comes back whole. */
  lemma Pop16AfterPush16(m: Machine, value: word)
    ensures Pop16(Push16(m, value)).1 == value
    ensures Pop16(Push16(m, value)).0.regs == m.regs.(sp := StackBase(m.regs))
  {
    var r := m.regs.(sp := StackBase(m.regs));
    var mb := m.(regs := r);
    PushFromBase(m, value / 0x100);
    DownZero(r);
    WordBytes(value);
    TwoPushes(mb, value / 0x100, value % 0x100);
    Pop16At(Push16(mb, value), r, 0);
  }

  /** A push depends on SP only through the form `StackBase` gives it. */
  lemma PushFromBase(m: Machine, value: byte)
    ensures Push8(m, value) == Push8(m.(regs := m.regs.(sp := StackBase(m.regs))), value)
  {
    if m.regs.e {
      var s: int := m.regs.sp;
      var d := s % 0x100;
      assert (0x100 + d) % 0x100 == d;
      PredMod(s, 0x100);
      assert (0x100 + d - 1) % 0x100 == (d - 1) % 0x100;
    }
  }

  /** In a normalised state the stack base is SP itself. */
  lemma NormalizedStackBase(r: Registers)
    requires Normalized(r)
    ensures StackBase(r) == r.sp
  {
  }

  /** SP after one push. */
  function Lowered(r: Registers): word
  {
    if r.e then (r.sp - 1) % 0x100 + 0x100 else (r.sp - 1) % 0x1_0000
  }

  /** The address a push writes. */
  function PushSlot(r: Registers): long
  {
    if r.e then 0x100 + r.sp % 0x100 else r.sp
  }

  lemma PushShape(m: Machine, value: byte)
    ensures Push8(m, value) == m.(mem := m.mem[PushSlot(m.regs) := value], regs := m.regs.(sp := Lowered(m.regs)))
  {
  }

  /** A pop whose SP is one push below `r0` reads the slot that push wrote and moves SP back, whatever else changed in between. */
  lemma PopReads(m: Machine, r0: Registers)
    requires m.regs.e == r0.e && m.regs.sp == Lowered(r0)
    ensures Pop8(m).0 == m.(regs := m.regs.(sp := StackBase(r0)))
    ensures Pop8(m).1 == m.mem[PushSlot(r0)]
  {
    PopShape(m);
    RaiseLowered(r0.sp);
  }

  /** SP after one pop. */
  function Lifted(r: Registers): word
  {
    if r.e then (r.sp + 1) % 0x100 + 0x100 else (r.sp + 1) % 0x1_0000
  }

  /** The address a pop reads. */
  function PopSlot(r: Registers): long
  {
    if r.e then 0x100 + ((r.sp + 1) % 0x100 + 0x100) % 0x100 else (r.sp + 1) % 0x1_0000
  }

  lemma PopShape(m: Machine)
    ensures Pop8(m) == (m.(regs := m.regs.(sp := Lifted(m.regs))), m.mem[PopSlot(m.regs)])
  {
  }

  /** One step down and one up, on each of the two stack forms. */
  lemma RaiseLowered(s: word)
    ensures ((s - 1) % 0x100 + 0x100 + 1) % 0x100 + 0x100 == 0x100 + s % 0x100
    ensures 0x100 + (((s - 1) % 0x100 + 0x100 + 1) % 0x100 + 0x100) % 0x100 == 0x100 + s % 0x100
    ensures ((s - 1) % 0x1_0000 + 1) % 0x1_0000 == s
  {
    var x: int := s;
    var low := (x - 1) % 0x100;
    SuccMod(x - 1, 0x100);
    assert (low + 0x100 + 1) % 0x100 == (low + 1) % 0x100;
    var up := (low + 1) % 0x100;
    assert (up + 0x100) % 0x100 == up;
    SuccMod(x - 1, 0x1_0000);
  }

  /** Stepping up after reducing modulo `n` is stepping up before. */
  lemma SuccMod(x: int, n: int)
    requires n > 0
    ensures (x % n + 1) % n == (x + 1) % n
  {
    var d := x % n;
    DivModOf(x, n, x / n, d);
    DivModOf(x + 1, n, if d == n - 1 then x / n + 1 else x / n, if d == n - 1 then 0 else d + 1);
    DivModOf(d + 1, n, if d == n - 1 then 1 else 0, if d == n - 1 then 0 else d + 1);
  }

  /** After a push SP is in the form `StackBase` gives it. */
  lemma LoweredBase(r: Registers)
    ensures StackBase(r.(sp := Lowered(r))) == Lowered(r)
  {
  }

  /** SP `k` pushes below `r`. */
  function Down(r: Registers, k: nat): word
  {
    if r.e then (r.sp - k) % 0x100 + 0x100 else (r.sp - k) % 0x1_0000
  }

  /** The address the `k`-th push from `r` writes. */
  function SlotAt(r: Registers, k: nat): long
  {
    if r.e then 0x100 + (r.sp - k) % 0x100 else (r.sp - k) % 0x1_0000
  }

  /** One more push moves one slot further down. */
  lemma DownStep(r: Registers, k: nat)
    ensures Lowered(r.(sp := Down(r, k))) == Down(r, k + 1)
    ensures PushSlot(r.(sp := Down(r, k))) == SlotAt(r, k)
  {
    var s: int := r.sp;
    if r.e {
      var d := (s - k) % 0x100;
      assert (d + 0x100) % 0x100 == d;
      PredMod(s - k, 0x100);
      assert (d + 0x100 - 1) % 0x100 == (d - 1) % 0x100;
    } else {
      PredMod(s - k, 0x1_0000);
    }
  }

  /** Stepping down after reducing modulo `n` is stepping down before. */
  lemma PredMod(x: int, n: int)
    requires n > 0
    ensures (x % n - 1) % n == (x - 1) % n
  {
    var d := x % n;
    DivModOf(x, n, x / n, d);
    DivModOf(x - 1, n, if d == 0 then x / n - 1 else x / n, if d == 0 then n - 1 else d - 1);
    DivModOf(d - 1, n, if d == 0 then -1 else 0, if d == 0 then n - 1 else d - 1);
  }

  /** No push is counted in `Down(r, 0)`. */
  lemma DownZero(r: Registers)
    requires r.sp == StackBase(r)
    ensures Down(r, 0) == r.sp
  {
  }

  /** Pushes up to four apart write different slots. */
  lemma SlotsDiffer(r: Registers, i: nat, j: nat)
    requires i < j <= 4
    ensures SlotAt(r, i) != SlotAt(r, j)
  {
    var s: int := r.sp;
    if r.e {
      DivModOf(s - i, 0x100, (s - i) / 0x100, (s - i) % 0x100);
      DivModOf(s - j, 0x100, (s - j) / 0x100, (s - j) % 0x100);
    } else {
      DivModOf(s - i, 0x1_0000, (s - i) / 0x1_0000, (s - i) % 0x1_0000);
      DivModOf(s - j, 0x1_0000, (s - j) / 0x1_0000, (s - j) % 0x1_0000);
    }
  }

  /** `Down` is already in the form `StackBase` gives it. */
  lemma DownBase(r: Registers, k: nat)
    ensures StackBase(r.(sp := Down(r, k))) == Down(r, k)
  {
  }

  /** The `k`-th push from `r`: it writes `SlotAt(r, k)` and moves SP one further down. */
  lemma PushAt(m: Machine, r: Registers, k: nat, value: byte)
    requires m.regs.e == r.e && m.regs.sp == Down(r, k)
    ensures Push8(m, value).regs == m.regs.(sp := Down(r, k + 1))
    ensures Push8(m, value).mem == m.mem[SlotAt(r, k) := value]
  {
    DownStep(r, k);
    assert m.regs.(sp := Down(r, k)) == m.regs;
    PushShape(m, value);
    assert PushSlot(m.regs) == PushSlot(r.(sp := Down(r, k)));
  }

  /** The pop matching the `k`-th push from `r`: it reads `SlotAt(r, k)` and moves SP back up. */
  lemma PopAt(m: Machine, r: Registers, k: nat)
    requires m.regs.e == r.e && m.regs.sp == Down(r, k + 1)
    ensures Pop8(m).0 == m.(regs := m.regs.(sp := Down(r, k)))
    ensures Pop8(m).1 == m.mem[SlotAt(r, k)]
  {
    DownStep(r, k);
    DownBase(r, k);
    PopReads(m, r.(sp := Down(r, k)));
  }

  // ---------------------------------------------------------------- properties: interrupts and subroutines

  /** What RTI reads in emulation mode when SP is three pushes below `r`: P, then PC low and high. */
  lemma RtiPopsEmulation(v: Machine, r: Registers)
    requires v.regs.e && r.e && v.regs.sp == Down(r, 3)
    ensures Rti(v).m.regs == Normalize(v.regs.(sp := Down(r, 0), p := Unpack(v.mem[SlotAt(r, 2)]).(m := true, x := true),
                                               pc := v.mem[SlotAt(r, 1)] as int + 0x100 * v.mem[SlotAt(r, 0)] as int))
  {
    PopAt(v, r, 2);
    var n1 := Pop8(v).0;
    PopAt(n1, r, 1);
    var n2 := Pop8(n1).0;
    PopAt(n2, r, 0);
  }

  /** What RTI reads in native mode when SP is four pushes below `r`: P, PC low and high, then PBR. */
  lemma RtiPopsNative(v: Machine, r: Registers)
    requires !v.regs.e && !r.e && v.regs.sp == Down(r, 4)
    ensures Rti(v).m.regs == Normalize(v.regs.(sp := Down(r, 0), p := Unpack(v.mem[SlotAt(r, 3)]),
                                               pc := v.mem[SlotAt(r, 2)] as int + 0x100 * v.mem[SlotAt(r, 1)] as int,
                                               pbr := v.mem[SlotAt(r, 0)]))
  {
    PopAt(v, r, 3);
    var n1 := Pop8(v).0;
    PopAt(n1, r, 2);
    var n2 := Pop8(n1).0;
    PopAt(n2, r, 1);
    var n3 := Pop8(n2).0;
    PopAt(n3, r, 0);
  }

  /** Three pushes from a stack already in its `StackBase` form: where each byte lands and where SP ends. */
  lemma ThreePushes(m: Machine, a: byte, b: byte, c: byte)
    requires m.regs.sp == StackBase(m.regs)
    ensures var r := m.regs; var t := Push8(Push8(Push8(m, a), b), c);
      && t.regs == r.(sp := Down(r, 3))
      && t.mem[SlotAt(r, 0)] == a && t.mem[SlotAt(r, 1)] == b && t.mem[SlotAt(r, 2)] == c
      && t.mem == m.mem[SlotAt(r, 0) := a][SlotAt(r, 1) := b][SlotAt(r, 2) := c]
  {
    var r := m.regs;
    SlotsDiffer(r, 0, 1); SlotsDiffer(r, 0, 2); SlotsDiffer(r, 1, 2);
    PushAt(m, r, 0, a);
    var m1 := Push8(m, a);
    PushAt(m1, r, 1, b);
    var m2 := Push8(m1, b);
    PushAt(m2, r, 2, c);
  }

  /** Four pushes from a stack already in its `StackBase` form. */
  lemma FourPushes(m: Machine, a: byte, b: byte, c: byte, d: byte)
    requires m.regs.sp == StackBase(m.regs)
    ensures var r := m.regs; var t := Push8(Push8(Push8(Push8(m, a), b), c), d);
      && t.regs == r.(sp := Down(r, 4))
      && t.mem[SlotAt(r, 0)] == a && t.mem[SlotAt(r, 1)] == b && t.mem[SlotAt(r, 2)] == c && t.mem[SlotAt(r, 3)] == d
  {
    var r := m.regs;
    ThreePushes(m, a, b, c);
    var m3 := Push8(Push8(Push8(m, a), b), c);
    SlotsDiffer(r, 0, 3); SlotsDiffer(r, 1, 3); SlotsDiffer(r, 2, 3);
    PushAt(m3, r, 3, d);
  }

  /** Two pushes from a stack already in its `StackBase` form. */
  lemma TwoPushes(m: Machine, a: byte, b: byte)
    requires m.regs.sp == StackBase(m.regs)
    ensures var r := m.regs; var t := Push8(Push8(m, a), b);
      && t.regs == r.(sp := Down(r, 2)) && t.mem[SlotAt(r, 0)] == a && t.mem[SlotAt(r, 1)] == b
  {
    var r := m.regs;
    SlotsDiffer(r, 0, 1);
    PushAt(m, r, 0, a);
    PushAt(Push8(m, a), r, 1, b);
  }

  /** `pop16` matching pushes `k` and `k + 1` from `r`: the word they hold, and SP back at `Down(r, k)`. */
  lemma Pop16At(v: Machine, r: Registers, k: nat)
    requires v.regs.e == r.e && v.regs.sp == Down(r, k + 2)
    ensures Pop16(v) == (v.(regs := v.regs.(sp := Down(r, k))), v.mem[SlotAt(r, k + 1)] as int + 0x100 * v.mem[SlotAt(r, k)] as int)
  {
    PopAt(v, r, k + 1);
    PopAt(Pop8(v).0, r, k);
  }

  /** RTI after the frame an emulation-mode interrupt or BRK pushes (`resume`, then P) returns to `resume` in bank 0. */
  lemma RtiAfterFrameEmulation(m: Machine, resume: word, status: byte, vector: word)
    requires Normalized(m.regs) && m.regs.e && Unpack(status).(m := true, x := true) == m.regs.p
    ensures Rti(Vectored(Push8(Push16(m, resume), status), vector)).m.regs == m.regs.(pbr := 0, pc := resume)
  {
    var r := m.regs;
    WordBytes(resume);
    ThreePushes(m, resume / 0x100, resume % 0x100, status);
    RtiPopsEmulation(Vectored(Push8(Push16(m, resume), status), vector), r);
    NormalizeFixes(r.(pbr := 0, pc := resume));
  }

  /** RTI after the frame a native-mode interrupt pushes (PBR, `resume`, then P) returns to `resume` with the registers it found. */
  lemma RtiAfterFrameNative(m: Machine, resume: word, vector: word)
    requires Normalized(m.regs) && !m.regs.e
    ensures Rti(Vectored(Push8(Push16(Push8(m, m.regs.pbr), resume), Pack(m.regs.p)), vector)).m.regs == m.regs.(pc := resume)
  {
    var r := m.regs;
    DownZero(r);
    WordBytes(resume);
    var t := Push8(Push16(Push8(m, r.pbr), resume), Pack(r.p));
    FourPushes(m, r.pbr, resume / 0x100, resume % 0x100, Pack(r.p));
    assert t.regs == r.(sp := Down(r, 4));
    var v := Vectored(t, vector);
    assert v.regs.e == r.e && v.regs.sp == Down(r, 4) && v.mem == t.mem;
    RtiPopsNative(v, r);
    UnpackPack(r.p);
    var popped := v.regs.(sp := Down(r, 0), p := Unpack(v.mem[SlotAt(r, 3)]),
                          pc := v.mem[SlotAt(r, 2)] as int + 0x100 * v.mem[SlotAt(r, 1)] as int, pbr := v.mem[SlotAt(r, 0)]);
    assert popped == r.(pc := resume);
    NormalizeFixes(r.(pc := resume));
  }

  /** RTI undoes an emulation-mode interrupt: only PBR, zeroed by the interrupt, differs. */
  lemma RtiAfterInterruptEmulation(m: Machine, nmi: bool)
    requires Normalized(m.regs) && m.regs.e
    ensures Rti(Interrupt(m, nmi).m).m.regs == m.regs.(pbr := 0)
  {
    UnpackPack(m.regs.p.(x := false));
    RtiAfterFrameEmulation(m, m.regs.pc, Pack(m.regs.p.(x := false)), if nmi then 0xfffa else 0xfffe);
  }

  /** RTI undoes a native-mode interrupt completely. */
  lemma RtiAfterInterruptNative(m: Machine, nmi: bool)
    requires Normalized(m.regs) && !m.regs.e
    ensures Rti(Interrupt(m, nmi).m).m.regs == m.regs
  {
    RtiAfterFrameNative(m, m.regs.pc, if nmi then 0xffea else 0xffee);
  }

  /** RTI after an emulation-mode BRK resumes two bytes past the opcode (the signature byte is skipped), in bank 0. */
  lemma RtiAfterBrkEmulation(m: Machine)
    requires Normalized(m.regs) && m.regs.e
    ensures Rti(Brk(m).m).m.regs == m.regs.(pbr := 0, pc := (m.regs.pc + 1) % 0x1_0000)
  {
    UnpackPack(m.regs.p);
    RtiAfterFrameEmulation(m, (m.regs.pc + 1) % 0x1_0000, Pushed(m.regs), 0xfffe);
  }

  /** RTI after a native-mode BRK, as corrected, resumes two bytes past the opcode with the registers BRK found. */
  lemma RtiAfterBrkNative(m: Machine)
    requires Normalized(m.regs) && !m.regs.e
    ensures Rti(Brk(m).m).m.regs == m.regs.(pc := (m.regs.pc + 1) % 0x1_0000)
  {
    RtiAfterFrameNative(m, (m.regs.pc + 1) % 0x1_0000, 0xffe6);
  }

  /**
   * BRK as written, in native mode, pushes one byte fewer than RTI pops: RTI
   * takes PBR from the byte above the frame and leaves SP one higher than
   * before the BRK.
   */
  lemma BrkAsWrittenUnbalanced(m: Machine)
    requires Normalized(m.regs) && !m.regs.e
    ensures Rti(BrkAsWritten(m).m).m.regs.sp == (m.regs.sp + 1) % 0x1_0000 != m.regs.sp
    ensures Rti(BrkAsWritten(m).m).m.regs.pbr == m.mem[(m.regs.sp + 1) % 0x1_0000]
  {
    var r := m.regs;
    var pc := (r.pc + 1) % 0x1_0000;
    WordBytes(pc);
    var t := Push8(Push16(m, pc), Pushed(r));
    ThreePushes(m, pc / 0x100, pc % 0x100, Pushed(r));
    var v := Vectored(t, 0xffe6);
    assert BrkAsWritten(m).m == v;
    var above := r.(sp := (r.sp + 1) % 0x1_0000);
    NativeAbove(r);
    RtiPopsNativeEnds(v, above);
  }

  /** Native-mode RTI four pushes below `r` leaves SP at `r`'s and takes PBR from the first slot. */
  lemma RtiPopsNativeEnds(v: Machine, r: Registers)
    requires !v.regs.e && !r.e && v.regs.sp == Down(r, 4)
    ensures Rti(v).m.regs.sp == Down(r, 0) && Rti(v).m.regs.pbr == v.mem[SlotAt(r, 0)]
  {
    RtiPopsNative(v, r);
  }

  /** In native mode, the registers one byte above SP see three pushes from SP as their second to fourth. */
  lemma NativeAbove(r: Registers)
    requires !r.e
    ensures var above := r.(sp := (r.sp + 1) % 0x1_0000);
      && Down(above, 4) == Down(r, 3) && Down(above, 0) == SlotAt(above, 0) == (r.sp + 1) % 0x1_0000 != r.sp
      && SlotAt(above, 0) != SlotAt(r, 0) && SlotAt(above, 0) != SlotAt(r, 1) && SlotAt(above, 0) != SlotAt(r, 2)
  {
    var s: int := r.sp;
    if s == 0xffff {
      assert (s + 1) % 0x1_0000 == 0;
    } else {
      assert (s + 1) % 0x1_0000 == s + 1;
    }
    DivModOf(s - 3, 0x1_0000, if s < 3 then -1 else 0, if s < 3 then s - 3 + 0x1_0000 else s - 3);
    DivModOf(s - 2, 0x1_0000, if s < 2 then -1 else 0, if s < 2 then s - 2 + 0x1_0000 else s - 2);
    DivModOf(s - 1, 0x1_0000, if s < 1 then -1 else 0, if s < 1 then s - 1 + 0x1_0000 else s - 1);
  }



  /** Stepping a 16-bit value back by one and forward by one returns it. */
  lemma BackAndForth(x: word)
    ensures ((x - 1) % 0x1_0000 + 1) % 0x1_0000 == x
  {
    if x == 0 {
      assert (x - 1) % 0x1_0000 == 0xffff;
    } else {
      assert (x - 1) % 0x1_0000 == x - 1;
    }
  }

  /** A word pushed high byte first is popped back whole. */
  lemma WordBytes(x: word)
    ensures x % 0x100 + 0x100 * (x / 0x100) == x && x / 0x100 < 0x100
  {
    DivModOf(x, 0x100, x / 0x100, x % 0x100);
  }

  /** `pop16` returns a word `push16` left, whatever changed since besides the stack. */
  lemma Pop16OfPush16(t: Machine, m: Machine, value: word)
    requires m.regs.sp == StackBase(m.regs)
    requires t.mem == Push16(m, value).mem && t.regs.e == m.regs.e && t.regs.sp == Push16(m, value).regs.sp
    ensures Pop16(t) == (t.(regs := t.regs.(sp := m.regs.sp)), value)
  {
    WordBytes(value);
    TwoPushes(m, value / 0x100, value % 0x100);
    assert t.mem[SlotAt(m.regs, 0)] == value / 0x100 && t.mem[SlotAt(m.regs, 1)] == value % 0x100;
    assert t.regs.sp == Down(m.regs, 2);
    Pop16At(t, m.regs, 0);
    assert Down(m.regs, 0) == m.regs.sp;
  }

  /** RTS after a frame holding `resume - 1` returns to `resume` with every other register as before the push. */
  lemma RtsAfterFrame(t: Machine, m: Machine, resume: word)
    requires m.regs.sp == StackBase(m.regs)
    requires var pushed := Push16(m, (resume - 1) % 0x1_0000);
      t.mem == pushed.mem && t.regs == pushed.regs.(pc := t.regs.pc)
    ensures Rts(t).m.regs == m.regs.(pc := resume)
  {
    var back := (resume - 1) % 0x1_0000;
    WordBytes(back);
    TwoPushes(m, back / 0x100, back % 0x100);
    Pop16OfPush16(t, m, back);
    BackAndForth(resume);
  }

  /** RTL after a frame holding `bank` and `resume - 1` returns to `resume` in `bank`. */
  lemma RtlAfterFrame(t: Machine, m: Machine, bank: byte, resume: word)
    requires m.regs.sp == StackBase(m.regs)
    requires var pushed := Push16(Push8(m, bank), (resume - 1) % 0x1_0000);
      t.mem == pushed.mem && t.regs == pushed.regs.(pbr := t.regs.pbr, pc := t.regs.pc)
    ensures Rtl(t).m.regs == m.regs.(pbr := bank, pc := resume)
  {
    var r := m.regs;
    DownZero(r);
    var back := (resume - 1) % 0x1_0000;
    WordBytes(back);
    ThreePushes(m, bank, back / 0x100, back % 0x100);
    RtlPops(t, r);
    BackAndForth(resume);
  }

  /** What RTL reads from three slots below `r`'s stack pointer. */
  lemma RtlPops(t: Machine, r: Registers)
    requires t.regs.e == r.e && t.regs.sp == Down(r, 3)
    ensures Rtl(t).m.regs == t.regs.(sp := Down(r, 0), pbr := t.mem[SlotAt(r, 0)],
      pc := (t.mem[SlotAt(r, 2)] as int + 0x100 * t.mem[SlotAt(r, 1)] as int + 1) % 0x1_0000)
  {
    Pop16At(t, r, 1);
    PopAt(Pop16(t).0, r, 0);
  }



  /** RTS after JSR resumes after the JSR's operand with the registers JSR found. */
  lemma RtsAfterJsr(m: Machine)
    requires Normalized(m.regs)
    ensures Rts(Jsr(m).m).m.regs == Skip(m.regs, 2)
  {
    var r1 := Skip(m.regs, 2);
    RtsAfterFrame(Jsr(m).m, m.(regs := r1), r1.pc);
  }

  /** RTL after JSL resumes after the JSL's operand in the bank JSL ran in. */
  lemma RtlAfterJsl(m: Machine)
    requires Normalized(m.regs)
    ensures Rtl(Jsl(m).m).m.regs == Skip(m.regs, 3)
  {
    var r1 := Skip(m.regs, 3);
    RtlAfterFrame(Jsl(m).m, m.(regs := r1), r1.pbr, r1.pc);
  }


  // ---------------------------------------------------------------- properties: arithmetic

  /** A value of the operation's width read as a two's-complement number. */
  function SignedAt(x: nat, narrow: bool): int
  {
    if x >= Top(narrow) then x - Limit(narrow) else x
  }

  /** The sign bit of a value of either width, as a comparison. */
  lemma SignOf(x: nat, narrow: bool)
    requires x < Limit(narrow)
    ensures Bit(x, Width(narrow) - 1) == (x >= Top(narrow))
  {
    Pow2Values();
    TopBit(x, Width(narrow));
    assert Pow2(7) == 0x80 && Pow2(15) == 0x8000;
  }

  /** ADC's overflow expression: both operands have one sign and the result the other. */
  lemma AddOverflowOfSigns(left: nat, right: nat, result: nat, narrow: bool)
    requires left < Limit(narrow) && right < Limit(narrow) && result < Limit(narrow)
    ensures AddOverflow(left, right, result, narrow)
      == ((left >= Top(narrow)) == (right >= Top(narrow)) && (left >= Top(narrow)) != (result >= Top(narrow)))
  {
    var w := Width(narrow);
    Pow2Values();
    var x := Xor(left, right, w);
    var y := Xor(left, result, w);
    BitOfAnd(Not(x, w), y, w, w - 1);
    BitOfNot(x, w, w - 1);
    BitOfXor(left, right, w, w - 1);
    BitOfXor(left, result, w, w - 1);
    SignOf(left, narrow);
    SignOf(right, narrow);
    SignOf(result, narrow);
  }

  /** SBC's overflow expression: the operands differ in sign and the result's sign differs from `left`'s. */
  lemma SubtractOverflowOfSigns(left: nat, right: nat, result: nat, narrow: bool)
    requires left < Limit(narrow) && right < Limit(narrow) && result < Limit(narrow)
    ensures SubtractOverflow(left, right, result, narrow)
      == ((left >= Top(narrow)) != (right >= Top(narrow)) && (left >= Top(narrow)) != (result >= Top(narrow)))
  {
    var w := Width(narrow);
    Pow2Values();
    var x := Xor(left, right, w);
    var y := Xor(left, result, w);
    BitOfAnd(x, y, w, w - 1);
    BitOfXor(left, right, w, w - 1);
    BitOfXor(left, result, w, w - 1);
    SignOf(left, narrow);
    SignOf(right, narrow);
    SignOf(result, narrow);
  }

  /** The sign rule for a sum is the same as the signed sum leaving the signed range. */
  lemma SignedSum(left: nat, right: nat, carry: nat, narrow: bool)
    requires left < Limit(narrow) && right < Limit(narrow) && carry <= 1
    ensures var top: int := Top(narrow); var result := Mask(left + right + carry, narrow);
      ((left >= top) == (right >= top) && (left >= top) != (result >= top))
      == !(-top <= SignedAt(left, narrow) + SignedAt(right, narrow) + carry < top)
  {
    var sum := left + right + carry;
    var limit := Limit(narrow);
    if sum >= limit {
      DivModOf(sum, limit, 1, sum - limit);
    } else {
      DivModOf(sum, limit, 0, sum);
    }
  }

  /** The sign rule for a difference is the same as the signed difference leaving the signed range. */
  lemma SignedDifference(left: nat, right: nat, borrow: nat, narrow: bool)
    requires left < Limit(narrow) && right < Limit(narrow) && borrow <= 1
    ensures var top: int := Top(narrow); var result := Mask(left - right - borrow, narrow);
      ((left >= top) != (right >= top) && (left >= top) != (result >= top))
      == !(-top <= SignedAt(left, narrow) - SignedAt(right, narrow) - borrow < top)
  {
    var difference := left - right - borrow;
    var limit := Limit(narrow);
    if difference < 0 {
      DivModOf(difference, limit, -1, difference + limit);
    } else {
      DivModOf(difference, limit, 0, difference);
    }
  }

  /**
   * Binary ADC (D clear) at the accumulator's width: the sum modulo the width,
   * C the carry out of the top bit, V signed overflow, Z and N from the result;
   * an 8-bit accumulator keeps its high byte.
   */
  lemma AdcBinary(r: Registers, value: word)
    requires !r.p.d
    ensures var narrow := Memory8(r); var limit := Limit(narrow);
      var left := Mask(r.a, narrow); var right := Mask(value, narrow); var carry := if r.p.c then 1 else 0;
      var after := Adc(r, value);
      && Accumulator(after) == Mask(left + right + carry, narrow)
      && after.p.c == (left + right + carry >= limit)
      && after.p.v == !(-(Top(narrow) as int) <= SignedAt(left, narrow) + SignedAt(right, narrow) + carry < Top(narrow))
      && after.p.z == (Accumulator(after) == 0) && after.p.n == (Accumulator(after) >= Top(narrow))
      && (narrow ==> after.a / 0x100 == r.a / 0x100)
  {
    var narrow := Memory8(r);
    var left := Mask(r.a, narrow);
    var right := Mask(value, narrow);
    var carry := if r.p.c then 1 else 0;
    var binary := Mask(left + right + carry, narrow);
    AdcShape(r, value);
    var q := r.p.(c := left + right + carry >= Limit(narrow), v := AddOverflow(left, right, binary, narrow));
    AccumulatorAfter(r, binary, q);
    AddOverflowOfSigns(left, right, binary, narrow);
    SignedSum(left, right, carry, narrow);
  }

  /** What `adc` writes, spelled out with the binary sum when D is clear. */
  lemma AdcShape(r: Registers, value: word)
    requires !r.p.d
    ensures var narrow := Memory8(r); var limit := Limit(narrow);
      var left := Mask(r.a, narrow); var right := Mask(value, narrow); var carry := if r.p.c then 1 else 0;
      var binary := Mask(left + right + carry, narrow);
      Adc(r, value) == r.(a := if narrow then WithLow(r.a, binary % 0x100) else binary,
                          p := SetZN(r.p.(c := left + right + carry >= limit, v := AddOverflow(left, right, binary, narrow)), binary, narrow))
  {
  }

  /** What `sbc` writes, spelled out with the binary difference when D is clear. */
  lemma SbcShape(r: Registers, value: word)
    requires !r.p.d
    ensures var narrow := Memory8(r); var limit := Limit(narrow);
      var left := Mask(r.a, narrow); var right := Mask(value, narrow); var borrow := if r.p.c then 0 else 1;
      var binary := Mask(left - right - borrow, narrow);
      Sbc(r, value) == r.(a := if narrow then WithLow(r.a, binary % 0x100) else binary,
                          p := SetZN(r.p.(c := left - right - borrow >= 0, v := SubtractOverflow(left, right, binary, narrow)), binary, narrow))
  {
  }

  /** Binary SBC (D clear): the difference with borrow `1 - C`, C set exactly when no borrow occurs, V signed overflow. */
  lemma SbcBinary(r: Registers, value: word)
    requires !r.p.d
    ensures var narrow := Memory8(r); var limit := Limit(narrow);
      var left := Mask(r.a, narrow); var right := Mask(value, narrow); var borrow := if r.p.c then 0 else 1;
      var after := Sbc(r, value);
      && Accumulator(after) == Mask(left - right - borrow, narrow)
      && after.p.c == (left - right - borrow >= 0)
      && after.p.v == !(-(Top(narrow) as int) <= SignedAt(left, narrow) - SignedAt(right, narrow) - borrow < Top(narrow))
      && after.p.z == (Accumulator(after) == 0) && after.p.n == (Accumulator(after) >= Top(narrow))
      && (narrow ==> after.a / 0x100 == r.a / 0x100)
  {
    var narrow := Memory8(r);
    var left := Mask(r.a, narrow);
    var right := Mask(value, narrow);
    var borrow := if r.p.c then 0 else 1;
    var binary := Mask(left as int - right - borrow, narrow);
    SbcShape(r, value);
    var q := r.p.(c := left as int - right - borrow >= 0, v := SubtractOverflow(left, right, binary, narrow));
    AccumulatorAfter(r, binary, q);
    SubtractOverflowOfSigns(left, right, binary, narrow);
    SignedDifference(left, right, borrow, narrow);
  }

  /** ADC and SBC, in either mode, change only A and the N, V, Z and C flags. */
  lemma AddSubtractFrame(r: Registers, value: word)
    ensures var after := Adc(r, value);
      after == r.(a := after.a, p := r.p.(c := after.p.c, v := after.p.v, z := after.p.z, n := after.p.n))
    ensures var after := Sbc(r, value);
      after == r.(a := after.a, p := r.p.(c := after.p.c, v := after.p.v, z := after.p.z, n := after.p.n))
  {
  }

  /** Writing a result of the accumulator's width the way ADC and SBC do: the accumulator then reads that result. */
  lemma AccumulatorAfter(r: Registers, result: nat, q: Flags)
    requires result < Limit(Memory8(r)) && q.m == r.p.m
    ensures var a := if Memory8(r) then WithLow(r.a, result % 0x100) else result;
      && a < 0x1_0000 && Accumulator(r.(a := a, p := q)) == result
      && (Memory8(r) ==> a / 0x100 == r.a / 0x100)
      && SetZN(q, result, Memory8(r)) == q.(z := result == 0, n := result >= Top(Memory8(r)))
  {
    if Memory8(r) {
      var high := r.a / 0x100;
      DivModOf(high * 0x100 + result, 0x100, high, result);
    }
  }

  // ---------------------------------------------------------------- properties: decimal mode

  function Pow10(n: nat): nat
  {
    if n == 0 then 1 else 10 * Pow10(n - 1)
  }

  function Pow16(n: nat): nat
  {
    if n == 0 then 1 else 16 * Pow16(n - 1)
  }

  /** Every one of the low `digits` nibbles is a decimal digit. */
  predicate ValidBcd(x: nat, digits: nat)
  {
    digits == 0 || (x % 0x10 <= 9 && ValidBcd(x / 0x10, digits - 1))
  }

  /** The number the low `digits` nibbles spell in decimal. */
  function DecimalValue(x: nat, digits: nat): nat
  {
    if digits == 0 then 0 else x % 0x10 + 10 * DecimalValue(x / 0x10, digits - 1)
  }

  /** On decimal digits the digit loop of `adcBcd` adds: the digits of the sum, and a carry worth `10^digits`. */
  lemma {:induction false} DecimalAddValue(left: nat, right: nat, carry: nat, digits: nat)
    requires ValidBcd(left, digits) && ValidBcd(right, digits) && carry <= 1
    ensures var (result, carryOut) := DecimalAdd(left, right, carry, digits);
      && ValidBcd(result, digits) && result < Pow16(digits) && carryOut <= 1
      && DecimalValue(result, digits) + (if carryOut == 0 then 0 else Pow10(digits))
         == DecimalValue(left, digits) + DecimalValue(right, digits) + carry
    decreases digits
  {
    if digits > 0 {
      var nibble := left % 0x10 + right % 0x10 + carry;
      var adjusted := if nibble > 9 then nibble + 6 else nibble;
      var next := if adjusted > 0xf then 1 else 0;
      DigitSum(left % 0x10, right % 0x10, carry);
      DecimalAddValue(left / 0x10, right / 0x10, next, digits - 1);
      var (rest, carryOut) := DecimalAdd(left / 0x10, right / 0x10, next, digits - 1);
      assert DecimalAdd(left, right, carry, digits) == (adjusted % 0x10 + 0x10 * rest, carryOut);
      Spelled(adjusted % 0x10, rest, digits);
      Spelled(left % 0x10, left / 0x10, digits);
      Spelled(right % 0x10, right / 0x10, digits);
    }
  }

  /** One digit of `adcBcd`: the digit written and ten times the carry make up the digit sum. */
  lemma DigitSum(a: nat, b: nat, carry: nat)
    requires a <= 9 && b <= 9 && carry <= 1
    ensures var nibble := a + b + carry; var adjusted := if nibble > 9 then nibble + 6 else nibble;
      adjusted % 0x10 <= 9 && adjusted % 0x10 + 10 * (if adjusted > 0xf then 1 else 0) == nibble
  {
    var nibble := a + b + carry;
    if nibble > 9 {
      DivModOf(nibble + 6, 0x10, 1, nibble - 10);
    }
  }

  /** One digit of `sbcBcd`: the digit written less ten times the borrow is the digit difference. */
  lemma DigitDifference(a: nat, b: nat, borrow: nat)
    requires a <= 9 && b <= 9 && borrow <= 1
    ensures var nibble := a - b - borrow; var adjusted := if nibble < 0 then nibble - 6 else nibble;
      adjusted % 0x10 <= 9 && adjusted % 0x10 - 10 * (if nibble < 0 then 1 else 0) == nibble
  {
    var nibble := a - b - borrow;
    if nibble < 0 {
      DivModOf(nibble - 6, 0x10, -1, nibble + 10);
    }
  }

  /** A number as its lowest nibble and the rest: its digits, its decimal value and its bound. */
  lemma Spelled(digit: nat, rest: nat, digits: nat)
    requires digit < 0x10 && digits > 0
    ensures var x := digit + 0x10 * rest;
      && x % 0x10 == digit && x / 0x10 == rest
      && DecimalValue(x, digits) == digit + 10 * DecimalValue(rest, digits - 1)
      && (ValidBcd(x, digits) <==> digit <= 9 && ValidBcd(rest, digits - 1))
      && (rest < Pow16(digits - 1) ==> x < Pow16(digits))
  {
    DivModOf(digit + 0x10 * rest, 0x10, rest, digit);
  }

  /** On decimal digits the digit loop of `sbcBcd` subtracts: the digits of the difference, and a borrow worth `10^digits`. */
  lemma DecimalSubtractValue(left: nat, right: nat, borrow: nat, digits: nat)
    requires ValidBcd(left, digits) && ValidBcd(right, digits) && borrow <= 1
    ensures var (result, borrowOut) := DecimalSubtract(left, right, borrow, digits);
      && ValidBcd(result, digits) && result < Pow16(digits) && borrowOut <= 1
      && DecimalValue(result, digits)
         == DecimalValue(left, digits) - DecimalValue(right, digits) - borrow + (if borrowOut == 0 then 0 else Pow10(digits))
  {
    DecimalSubtractDigits(left, right, borrow, digits);
    DecimalSubtractSum(left, right, borrow, digits);
  }

  /** The digit loop of `sbcBcd` writes decimal digits and borrows at most one. */
  lemma {:induction false} DecimalSubtractDigits(left: nat, right: nat, borrow: nat, digits: nat)
    requires ValidBcd(left, digits) && ValidBcd(right, digits) && borrow <= 1
    ensures var (result, borrowOut) := DecimalSubtract(left, right, borrow, digits);
      ValidBcd(result, digits) && result < Pow16(digits) && borrowOut <= 1
    decreases digits
  {
    if digits > 0 {
      var nibble := left % 0x10 - right % 0x10 - borrow;
      var adjusted := if nibble < 0 then nibble - 6 else nibble;
      var next := if nibble < 0 then 1 else 0;
      DigitDifference(left % 0x10, right % 0x10, borrow);
      DecimalSubtractDigits(left / 0x10, right / 0x10, next, digits - 1);
      var (rest, borrowOut) := DecimalSubtract(left / 0x10, right / 0x10, next, digits - 1);
      assert DecimalSubtract(left, right, borrow, digits) == (adjusted % 0x10 + 0x10 * rest, borrowOut);
      Spelled(adjusted % 0x10, rest, digits);
    }
  }

  /** The value the digits of `sbcBcd`'s result spell. */
  lemma {:induction false} DecimalSubtractSum(left: nat, right: nat, borrow: nat, digits: nat)
    requires ValidBcd(left, digits) && ValidBcd(right, digits) && borrow <= 1
    ensures var (result, borrowOut) := DecimalSubtract(left, right, borrow, digits);
      DecimalValue(result, digits)
      == DecimalValue(left, digits) - DecimalValue(right, digits) - borrow + (if borrowOut == 0 then 0 else Pow10(digits))
    decreases digits
  {
    if digits > 0 {
      var nibble := left % 0x10 - right % 0x10 - borrow;
      var adjusted := if nibble < 0 then nibble - 6 else nibble;
      var next := if nibble < 0 then 1 else 0;
      DigitDifference(left % 0x10, right % 0x10, borrow);
      DecimalSubtractSum(left / 0x10, right / 0x10, next, digits - 1);
      var (rest, borrowOut) := DecimalSubtract(left / 0x10, right / 0x10, next, digits - 1);
      assert DecimalSubtract(left, right, borrow, digits) == (adjusted % 0x10 + 0x10 * rest, borrowOut);
      DivModOf(adjusted % 0x10 + 0x10 * rest, 0x10, rest, adjusted % 0x10);
      assert Pow10(digits) == 10 * Pow10(digits - 1);
      SubtractCarried(adjusted % 0x10, left % 0x10, right % 0x10, borrow, next,
                      DecimalValue(left / 0x10, digits - 1), DecimalValue(right / 0x10, digits - 1),
                      DecimalValue(rest, digits - 1), if borrowOut == 0 then 0 else Pow10(digits - 1));
    }
  }

  /** The value step of `DecimalSubtractValue`: one digit and the rest, each less what it borrowed. */
  lemma SubtractCarried(digit: int, a: int, b: int, borrow: int, next: int, restLeft: int, restRight: int, rest: int, owed: int)
    requires digit - 10 * next == a - b - borrow
    requires rest == restLeft - restRight - next + owed
    ensures digit + 10 * rest == (a + 10 * restLeft) - (b + 10 * restRight) - borrow + 10 * owed
  {
  }

  /** Two or four nibbles fill the operation's width exactly. */
  lemma DigitsFillWidth(narrow: bool)
    ensures Pow16(Digits(narrow)) == Limit(narrow)
  {
    assert Pow16(2) == 0x100;
    assert Pow16(4) == 0x1_0000;
  }

  /** A value already of the operation's width is its own mask. */
  lemma MaskSmall(x: nat, narrow: bool)
    requires x < Limit(narrow)
    ensures Mask(x, narrow) == x
  {
  }

  /** `adcBcd` on BCD operands: the decimal digits of the sum, and a carry worth `10^digits`. */
  lemma AdcBcdValue(left: nat, right: nat, carry: nat, narrow: bool)
    requires ValidBcd(left, Digits(narrow)) && ValidBcd(right, Digits(narrow)) && carry <= 1
    ensures var (result, carryOut) := AdcBcd(left, right, carry, narrow);
      && ValidBcd(result, Digits(narrow))
      && DecimalValue(result, Digits(narrow)) + (if carryOut then Pow10(Digits(narrow)) else 0)
         == DecimalValue(left, Digits(narrow)) + DecimalValue(right, Digits(narrow)) + carry
  {
    DecimalAddValue(left, right, carry, Digits(narrow));
    DigitsFillWidth(narrow);
    MaskSmall(DecimalAdd(left, right, carry, Digits(narrow)).0, narrow);
  }

  /** `sbcBcd` on BCD operands: the decimal digits of the difference, and C clear exactly when a borrow was left. */
  lemma SbcBcdValue(left: nat, right: nat, borrow: nat, narrow: bool)
    requires ValidBcd(left, Digits(narrow)) && ValidBcd(right, Digits(narrow)) && borrow <= 1
    ensures var (result, noBorrow) := SbcBcd(left, right, borrow, narrow);
      && ValidBcd(result, Digits(narrow))
      && DecimalValue(result, Digits(narrow))
         == DecimalValue(left, Digits(narrow)) - DecimalValue(right, Digits(narrow)) - borrow + (if noBorrow then 0 else Pow10(Digits(narrow)))
  {
    DecimalSubtractValue(left, right, borrow, Digits(narrow));
    DigitsFillWidth(narrow);
    MaskSmall(DecimalSubtract(left, right, borrow, Digits(narrow)).0, narrow);
  }

  /** What `adc` writes when D is set. */
  lemma AdcDecimalShape(r: Registers, value: word)
    requires r.p.d
    ensures var narrow := Memory8(r);
      var left := Mask(r.a, narrow); var right := Mask(value, narrow); var carry := if r.p.c then 1 else 0;
      var decimal := AdcBcd(left, right, carry, narrow);
      Adc(r, value) == r.(a := if narrow then WithLow(r.a, decimal.0 % 0x100) else decimal.0,
        p := SetZN(r.p.(c := decimal.1, v := AddOverflow(left, right, Mask(left + right + carry, narrow), narrow)), decimal.0, narrow))
  {
    var narrow := Memory8(r);
    var decimal := AdcBcd(Mask(r.a, narrow), Mask(value, narrow), if r.p.c then 1 else 0, narrow);
    assert decimal.0 < Limit(narrow);
  }

  /** What `sbc` writes when D is set. */
  lemma SbcDecimalShape(r: Registers, value: word)
    requires r.p.d
    ensures var narrow := Memory8(r);
      var left := Mask(r.a, narrow); var right := Mask(value, narrow); var borrow := if r.p.c then 0 else 1;
      var decimal := SbcBcd(left, right, borrow, narrow);
      Sbc(r, value) == r.(a := if narrow then WithLow(r.a, decimal.0 % 0x100) else decimal.0,
        p := SetZN(r.p.(c := decimal.1, v := SubtractOverflow(left, right, Mask(left - right - borrow, narrow), narrow)), decimal.0, narrow))
  {
    var narrow := Memory8(r);
    var decimal := SbcBcd(Mask(r.a, narrow), Mask(value, narrow), if r.p.c then 0 else 1, narrow);
    assert decimal.0 < Limit(narrow);
  }

  /**
   * Decimal ADC (D set) on BCD operands: A holds the decimal digits of
   * A + M + C and C says whether the sum reached `10^digits`; V still comes
   * from the binary sum.
   */
  lemma AdcDecimal(r: Registers, value: word)
    requires r.p.d
    requires ValidBcd(Mask(r.a, Memory8(r)), Digits(Memory8(r))) && ValidBcd(Mask(value, Memory8(r)), Digits(Memory8(r)))
    ensures var narrow := Memory8(r); var digits := Digits(narrow);
      var left := Mask(r.a, narrow); var right := Mask(value, narrow); var carry := if r.p.c then 1 else 0;
      var after := Adc(r, value);
      && ValidBcd(Accumulator(after), digits)
      && DecimalValue(Accumulator(after), digits) + (if after.p.c then Pow10(digits) else 0)
         == DecimalValue(left, digits) + DecimalValue(right, digits) + carry
      && after.p.v == AddOverflow(left, right, Mask(left + right + carry, narrow), narrow)
      && (narrow ==> after.a / 0x100 == r.a / 0x100)
  {
    var narrow := Memory8(r);
    var left := Mask(r.a, narrow);
    var right := Mask(value, narrow);
    var carry := if r.p.c then 1 else 0;
    var decimal := AdcBcd(left, right, carry, narrow);
    AdcDecimalShape(r, value);
    AccumulatorAfter(r, decimal.0, r.p.(c := decimal.1, v := AddOverflow(left, right, Mask(left + right + carry, narrow), narrow)));
    AdcBcdValue(left, right, carry, narrow);
  }

  /** Decimal SBC (D set) on BCD operands: A holds the decimal digits of A - M - (1 - C), and C is set exactly when no borrow was left. */
  lemma SbcDecimal(r: Registers, value: word)
    requires r.p.d
    requires ValidBcd(Mask(r.a, Memory8(r)), Digits(Memory8(r))) && ValidBcd(Mask(value, Memory8(r)), Digits(Memory8(r)))
    ensures var narrow := Memory8(r); var digits := Digits(narrow);
      var left := Mask(r.a, narrow); var right := Mask(value, narrow); var borrow := if r.p.c then 0 else 1;
      var after := Sbc(r, value);
      && ValidBcd(Accumulator(after), digits)
      && DecimalValue(Accumulator(after), digits)
         == DecimalValue(left, digits) - DecimalValue(right, digits) - borrow + (if after.p.c then 0 else Pow10(digits))
      && after.p.v == SubtractOverflow(left, right, Mask(left - right - borrow, narrow), narrow)
      && (narrow ==> after.a / 0x100 == r.a / 0x100)
  {
    var narrow := Memory8(r);
    var left := Mask(r.a, narrow);
    var right := Mask(value, narrow);
    var borrow := if r.p.c then 0 else 1;
    var decimal := SbcBcd(left, right, borrow, narrow);
    SbcDecimalShape(r, value);
    AccumulatorAfter(r, decimal.0, r.p.(c := decimal.1, v := SubtractOverflow(left, right, Mask(left as int - right - borrow, narrow), narrow)));
    SbcBcdValue(left, right, borrow, narrow);
  }

  /** `compare`: C when `left >= right`, Z exactly when they are equal, N the sign of the difference; other flags kept. */
  lemma CompareFlags(p: Flags, left: word, right: word, narrow: bool)
    requires left < Limit(narrow) && right < Limit(narrow)
    ensures var q := Compare(p, left, right, narrow);
      && q.c == (left >= right) && q.z == (left == right)
      && q.n == (Mask(left - right, narrow) >= Top(narrow))
      && q.(c := p.c, z := p.z, n := p.n) == p
  {
    var limit := Limit(narrow);
    var difference := left - right;
    if difference < 0 {
      DivModOf(difference, limit, -1, difference + limit);
    } else {
      DivModOf(difference, limit, 0, difference);
    }
  }

  /** `0x99 + 0x01` in decimal mode with C clear gives 0x00 and sets C. */
  lemma DecimalCarryExample8()
    ensures AdcBcd(0x99, 0x01, 0, true) == (0x00, true)
  {
    assert DecimalAdd(0, 0, 1, 0) == (0, 1);
    assert DecimalAdd(0x9, 0, 1, 1) == (0, 1);
    assert DecimalAdd(0x99, 0x01, 0, 2) == (0, 1);
  }

  /** `0x9999 + 0x0001` in decimal mode with C clear gives 0x0000 and sets C. */
  lemma DecimalCarryExample16()
    ensures AdcBcd(0x9999, 0x0001, 0, false) == (0x0000, true)
  {
    assert DecimalAdd(0, 0, 1, 0) == (0, 1);
    assert DecimalAdd(0x9, 0, 1, 1) == (0, 1);
    assert DecimalAdd(0x99, 0, 1, 2) == (0, 1);
    assert DecimalAdd(0x999, 0, 1, 3) == (0, 1);
    assert DecimalAdd(0x9999, 0x0001, 0, 4) == (0, 1);
  }

  // ---------------------------------------------------------------- properties: the invariant across instructions

  /** A push keeps the invariant and moves nothing but SP. */
  lemma Push8Keeps(m: Machine, value: byte)
    requires Normalized(m.regs)
    ensures Normalized(Push8(m, value).regs) && Push8(m, value).regs.(sp := m.regs.sp) == m.regs
  {
  }

  /** A pop keeps the invariant and moves nothing but SP. */
  lemma Pop8Keeps(m: Machine)
    requires Normalized(m.regs)
    ensures Normalized(Pop8(m).0.regs) && Pop8(m).0.regs.(sp := m.regs.sp) == m.regs
  {
  }

  lemma Push16Keeps(m: Machine, value: word)
    requires Normalized(m.regs)
    ensures Normalized(Push16(m, value).regs) && Push16(m, value).regs.(sp := m.regs.sp) == m.regs
  {
    Push8Keeps(m, value / 0x100);
    Push8Keeps(Push8(m, value / 0x100), value % 0x100);
  }

  lemma Pop16Keeps(m: Machine)
    requires Normalized(m.regs)
    ensures Normalized(Pop16(m).0.regs) && Pop16(m).0.regs.(sp := m.regs.sp) == m.regs
  {
    Pop8Keeps(m);
    Pop8Keeps(Pop8(m).0);
  }

  /** Loading a register through `loadA`, `loadX` or `loadY` keeps the invariant: the index loads mask to the index width. */
  lemma LoadKeeps(r: Registers, reg: Reg, value: word)
    requires Normalized(r)
    ensures Normalized(Load(r, reg, value))
  {
  }

  /** The accumulator operations change A and the N, V, Z and C flags only. */
  lemma OperateKeeps(r: Registers, op: AluOp, value: word)
    requires Normalized(r)
    ensures var r1 := Operate(r, op, value); Normalized(r1) && r1.p.m == r.p.m && r1.p.x == r.p.x && r1.(a := r.a, p := r.p) == r
  {
    if op == ADC || op == SBC {
      AddSubtractFrame(r, value);
    }
  }

  /** The read-modify-write operations change only the N, V, Z and C flags. */
  lemma ModifiedKeeps(r: Registers, op: ModifyOp, value: word, narrow: bool)
    requires value < Limit(narrow)
    ensures var p := Modified(r, op, value, narrow).0; p.m == r.p.m && p.x == r.p.x
  {
    match op
    case TSB => assert Modified(r, op, value, narrow).0 == Tested(r, true, value, narrow).0;
    case TRB => assert Modified(r, op, value, narrow).0 == Tested(r, false, value, narrow).0;
    case _ =>
  }

  /** An interrupt, or BRK, keeps the invariant: it pushes, then changes I, D, PBR and PC. */
  lemma InterruptKeeps(m: Machine, nmi: bool)
    requires Normalized(m.regs)
    ensures Normalized(Interrupt(m, nmi).m.regs)
  {
    var r := m.regs;
    if r.e {
      Push16Keeps(m, r.pc);
      Push8Keeps(Push16(m, r.pc), Pack(r.p.(x := false)));
    } else {
      Push8Keeps(m, r.pbr);
      Push16Keeps(Push8(m, r.pbr), r.pc);
      Push8Keeps(Push16(Push8(m, r.pbr), r.pc), Pack(r.p));
    }
  }

  lemma BrkKeeps(m: Machine)
    requires Normalized(m.regs)
    ensures Normalized(Brk(m).m.regs)
  {
    var r := m.regs;
    var resume := (r.pc + 1) % 0x1_0000;
    if r.e {
      Push16Keeps(m, resume);
      Push8Keeps(Push16(m, resume), Pushed(r));
    } else {
      Push8Keeps(m, r.pbr);
      Push16Keeps(Push8(m, r.pbr), resume);
      Push8Keeps(Push16(Push8(m, r.pbr), resume), Pushed(r));
    }
  }

  lemma JsrKeeps(m: Machine)
    requires Normalized(m.regs)
    ensures Normalized(Jsr(m).m.regs)
  {
    var r1 := Skip(m.regs, 2);
    Push16Keeps(m.(regs := r1), (r1.pc - 1) % 0x1_0000);
  }

  lemma JslKeeps(m: Machine)
    requires Normalized(m.regs)
    ensures Normalized(Jsl(m).m.regs)
  {
    var r1 := Skip(m.regs, 3);
    Push8Keeps(m.(regs := r1), r1.pbr);
    Push16Keeps(Push8(m.(regs := r1), r1.pbr), (r1.pc - 1) % 0x1_0000);
  }

  lemma ReturnsKeep(m: Machine)
    requires Normalized(m.regs)
    ensures Normalized(Rts(m).m.regs) && Normalized(Rtl(m).m.regs)
  {
    Pop16Keeps(m);
    Pop8Keeps(Pop16(m).0);
  }

  lemma StackOpsKeep(m: Machine, instr: Instr)
    requires Normalized(m.regs)
    requires StackOp(instr)
    ensures Normalized(PerformStack(m, instr).m.regs)
  {
    match instr
    case PushStatus => Push8Keeps(m, Pushed(m.regs));
    case PushDirect => Push16Keeps(m, m.regs.d);
    case PushProgramBank => Push8Keeps(m, m.regs.pbr);
    case PushDataBank => Push8Keeps(m, m.regs.dbr);
    case PushReg(reg) =>
      var value := Value(m.regs, reg);
      Push8Keeps(m, value % 0x100);
      Push16Keeps(m, value);
    case PullDataBank => Pop8Keeps(m);
    case PullReg(reg) =>
      Pop8Keeps(m);
      Pop16Keeps(m);
      var (m1, value) := PopSized(m, Narrow(m.regs, reg));
      LoadKeeps(m1.regs, reg, value);
    case PushRelative =>
      var r1 := Skip(m.regs, 2);
      Push16Keeps(m.(regs := r1), (r1.pc + Signed16(Operand16(m.regs, m.mem))) % 0x1_0000);
  }

  /**
   * Every instruction but MVN and MVP keeps the widths invariant: the ones
   * that change E, M or X end in `normalizeFlagsAndRegisters`, and the
   * others keep E, M and X, mask what they load into X and Y to the index
   * width, and keep SP in page 1 in emulation mode.
   */
  lemma PerformKeepsNormalized(m: Machine, instr: Instr)
    requires Normalized(m.regs) && !instr.Move?
    ensures Normalized(Perform(m, instr).m.regs)
  {
    if DataOp(instr) {
      DataOpsKeep(m, instr);
    } else if RegisterOp(instr) {
      RegisterOpsKeep(m, instr);
    } else if ModeOp(instr) {
      ModeOpsKeep(m, instr);
    } else if StackOp(instr) {
      StackOpsKeep(m, instr);
    } else if FlowOp(instr) {
      FlowOpsKeep(m, instr);
    } else {
      CallsKeep(m, instr);
    }
  }

  lemma ModeOpsKeep(m: Machine, instr: Instr)
    requires ModeOp(instr)
    ensures Normalized(PerformMode(m, instr).m.regs)
  {
    var r := m.regs;
    match instr
    case ExchangeEmulation => NormalizeEstablishes(r.(p := r.p.(c := r.e), e := r.p.c));
    case ResetFlags => NormalizeEstablishes(Skip(r, 1).(p := Cleared(r.p, ProgramByte(r, m.mem, 0))));
    case SetFlags => NormalizeEstablishes(Skip(r, 1).(p := Raised(r.p, ProgramByte(r, m.mem, 0))));
    case PullStatus =>
      var (m1, status) := Pop8(m);
      NormalizeEstablishes(m1.regs.(p := Unpack(status)));
  }

  lemma DataOpsKeep(m: Machine, instr: Instr)
    requires Normalized(m.regs)
    requires DataOp(instr)
    ensures Normalized(PerformData(m, instr).m.regs)
  {
    match instr
    case Accumulate(op, source, cycles8, cycles16) => AluKeeps(m, op, source, cycles8, cycles16);
    case IndexOperate(op, source, cycles8, cycles16) => IndexAluKeeps(m, op, source, cycles8, cycles16);
    case StoreAccumulator(mode, zero, cycles8, cycles16) => StoreKeeps(m, mode, zero, cycles8, cycles16);
    case StoreIndexReg(mode, useY, cycles8, cycles16) => StoreIndexKeeps(m, mode, useY, cycles8, cycles16);
    case ModifyAt(op, mode, cycles8, cycles16) => ModifyMemoryKeeps(m, op, mode, cycles8, cycles16);
    case ModifyA(op) => ModifyAccumulatorKeeps(m, op);
  }

  lemma AluKeeps(m: Machine, op: AluOp, source: Source, cycles8: nat, cycles16: nat)
    requires Normalized(m.regs)
    ensures Normalized(Alu(m, op, source, cycles8, cycles16).m.regs)
  {
    var (r1, value) := Fetch(m.regs, m.mem, source, Memory8(m.regs));
    OperateKeeps(r1, op, value);
  }

  lemma IndexAluKeeps(m: Machine, op: IndexOp, source: Source, cycles8: nat, cycles16: nat)
    requires Normalized(m.regs)
    ensures Normalized(IndexAlu(m, op, source, cycles8, cycles16).m.regs)
  {
  }

  lemma StoreKeeps(m: Machine, mode: Mode, zero: bool, cycles8: nat, cycles16: nat)
    requires Normalized(m.regs)
    ensures Normalized(Store(m, mode, zero, cycles8, cycles16).m.regs)
  {
  }

  lemma StoreIndexKeeps(m: Machine, mode: Mode, useY: bool, cycles8: nat, cycles16: nat)
    requires Normalized(m.regs)
    ensures Normalized(StoreIndex(m, mode, useY, cycles8, cycles16).m.regs)
  {
  }

  lemma ModifyMemoryKeeps(m: Machine, op: ModifyOp, mode: Mode, cycles8: nat, cycles16: nat)
    requires Normalized(m.regs)
    ensures Normalized(ModifyMemory(m, op, mode, cycles8, cycles16).m.regs)
  {
    var narrow := Memory8(m.regs);
    ModifiedKeeps(Skip(m.regs, Length(mode)), op, ReadSized(m.mem, Address(m.regs, m.mem, mode), narrow, false), narrow);
  }

  lemma ModifyAccumulatorKeeps(m: Machine, op: ModifyOp)
    requires Normalized(m.regs)
    ensures Normalized(ModifyAccumulator(m, op).m.regs)
  {
    ModifiedKeeps(m.regs, op, Mask(m.regs.a, Memory8(m.regs)), Memory8(m.regs));
  }

  lemma RegisterOpsKeep(m: Machine, instr: Instr)
    requires Normalized(m.regs)
    requires RegisterOp(instr)
    ensures Normalized(PerformRegister(m, instr).m.regs)
  {
    match instr
    case Copy(src, dst) => LoadKeeps(m.regs, dst, Value(m.regs, src));
    case StepIndex(useY, up) => IncrementIndexKeeps(m, useY, up);
    case AssignFlag(flag, value) => TransfersKeep(m, flag, value);
    case _ => TransfersKeep(m, CFlag, false);
  }

  lemma IncrementIndexKeeps(m: Machine, useY: bool, up: bool)
    requires Normalized(m.regs)
    ensures Normalized(IncrementIndex(m, useY, up).m.regs)
  {
  }

  /** TCS keeps SP in page 1 in emulation mode; TCD, XBA and the flag instructions leave E, M, X, SP and the index registers alone. */
  lemma TransfersKeep(m: Machine, flag: FlagName, value: bool)
    requires Normalized(m.regs)
    ensures Normalized(Tcs(m).m.regs) && Normalized(Tcd(m).m.regs) && Normalized(Xba(m).m.regs)
    ensures Normalized(SetFlag(m, flag, value).m.regs)
  {
  }

  lemma FlowOpsKeep(m: Machine, instr: Instr)
    requires Normalized(m.regs)
    requires FlowOp(instr)
    ensures Normalized(PerformFlow(m, instr).m.regs)
  {
    match instr
    case BranchIf(condition) => JumpsKeep(m, condition);
    case _ => JumpsKeep(m, Always);
  }

  lemma CallsKeep(m: Machine, instr: Instr)
    requires Normalized(m.regs)
    requires CallOp(instr)
    ensures Normalized(PerformCall(m, instr).m.regs)
  {
    match instr
    case JumpSubroutine => JsrKeeps(m);
    case JumpSubroutineLong => JslKeeps(m);
    case ReturnSubroutine => ReturnsKeep(m);
    case ReturnLong => ReturnsKeep(m);
    case Break => BrkKeeps(m);
    case ReturnFromInterrupt => RtiKeeps(m);
  }

  /** The branches and jumps change only PC and PBR. */
  lemma JumpsKeep(m: Machine, condition: Condition)
    requires Normalized(m.regs)
    ensures Normalized(Branch(m, condition).m.regs) && Normalized(Brl(m).m.regs) && Normalized(Jmp(m).m.regs)
    ensures Normalized(Jml(m).m.regs) && Normalized(JmlIndirect(m).m.regs)
  {
  }

  /** RTI ends in `normalizeFlagsAndRegisters`. */
  lemma RtiKeeps(m: Machine)
    ensures Normalized(Rti(m).m.regs)
  {
    var (m1, status) := Pop8(m);
    var (m2, pc) := Pop16(m1);
    if m.regs.e {
      NormalizeEstablishes(m2.regs.(p := Unpack(status).(m := true, x := true), pc := pc));
    } else {
      var (m3, bank) := Pop8(m2);
      NormalizeEstablishes(m3.regs.(p := Unpack(status), pc := pc, pbr := bank));
    }
  }

  /** Only 0x44 (MVP) and 0x54 (MVN) are block moves; 0x54 increments. */
  lemma DecodeMoves(opcode: byte)
    ensures (Decode(opcode).Some? && Decode(opcode).value.Move?) <==> opcode == 0x44 || opcode == 0x54
    ensures Decode(0x44) == Some(Move(false)) && Decode(0x54) == Some(Move(true))
  {
  }

  /** `execute` keeps the invariant for every opcode but MVN and MVP; the unknown ones change no register. */
  lemma ExecuteKeepsNormalized(m: Machine, opcode: byte, strict: bool)
    requires Normalized(m.regs) && opcode != 0x44 && opcode != 0x54
    ensures Normalized(Execute(m, opcode, strict).m.regs)
  {
    DecodeMoves(opcode);
    match Decode(opcode)
    case None =>
    case Some(instr) => PerformKeepsNormalized(m, instr);
  }

  /** Interrupts keep the invariant too, so every `step` that does not run a block move does. */
  lemma StepKeepsNormalized(cpu: Cpu, strict: bool)
    requires Normalized(cpu.m.regs)
    requires var op := ProgramByte(cpu.m.regs, cpu.m.mem, 0);
      cpu.nmiPending || (!cpu.m.regs.p.i && cpu.irqPending) || (op != 0x44 && op != 0x54)
    ensures Normalized(Step(cpu, strict).0.m.regs)
  {
    var m := cpu.m;
    if cpu.nmiPending {
      InterruptKeeps(m, true);
    } else if !m.regs.p.i && cpu.irqPending {
      InterruptKeeps(m, false);
    } else {
      ExecuteKeepsNormalized(m.(regs := Skip(m.regs, 1)), ProgramByte(m.regs, m.mem, 0), strict);
    }
  }

  /**
   * MVN and MVP step X and Y modulo 2^16 whatever the index width, so with
   * X set they can leave an index register above 0xFF.
   */
  lemma BlockMoveWidensIndex(m: Machine, increment: bool)
    requires Normalized(m.regs) && !m.regs.e && m.regs.p.x && m.regs.x == 0xff && increment
    ensures !Normalized(BlockMove(m, increment).m.regs) && BlockMove(m, increment).m.regs.x == 0x100
  {
  }

  /** `blockMove`: the byte, the stepped registers, A counted down, DBR and PC, as the source states them. */
  lemma BlockMoveEffect(m: Machine, increment: bool)
    ensures var r := m.regs; var after := BlockMove(m, increment).m;
      var destBank := ProgramByte(r, m.mem, 0); var srcBank := ProgramByte(r, m.mem, 1);
      var delta := if increment then 1 else -1;
      && after.mem == m.mem[destBank * 0x1_0000 + r.y := m.mem[srcBank * 0x1_0000 + r.x]]
      && after.regs.x == (r.x + delta) % 0x1_0000 && after.regs.y == (r.y + delta) % 0x1_0000
      && after.regs.a == (r.a - 1) % 0x1_0000 && after.regs.dbr == destBank
      && after.regs.pc == (if r.a == 0 then (r.pc + 2) % 0x1_0000 else (r.pc - 1) % 0x1_0000)
      && after.regs.(x := r.x, y := r.y, a := r.a, dbr := r.dbr, pc := r.pc) == r
      && after.unknown == m.unknown && BlockMove(m, increment).cycles == 7
  {
    var r := m.regs;
    var a := (r.a - 1) % 0x1_0000;
    var next := (r.pc + 2) % 0x1_0000;
    if r.a == 0 {
      DivModOf(-1, 0x1_0000, -1, 0xffff);
    } else {
      DivModOf(r.a - 1, 0x1_0000, 0, r.a - 1);
      PredMod(r.pc + 2 - 2, 0x1_0000);
      WrapBack(r.pc);
    }
  }

  /** Stepping PC forward by two and back by three is stepping it back by one, modulo 2^16. */
  lemma WrapBack(pc: word)
    ensures ((pc + 2) % 0x1_0000 - 3) % 0x1_0000 == (pc - 1) % 0x1_0000
  {
    if pc <= 0xfffd {
      DivModOf(pc + 2, 0x1_0000, 0, pc + 2);
    } else if pc == 0xfffe {
      DivModOf(pc + 2, 0x1_0000, 1, 0);
      DivModOf(-3, 0x1_0000, -1, 0xfffd);
    } else {
      DivModOf(pc + 2, 0x1_0000, 1, 1);
      DivModOf(-2, 0x1_0000, -1, 0xfffe);
    }
  }

  // ---------------------------------------------------------------- properties: the 8-bit accumulator

  /** `(A & 0xff00) | low` keeps bits 8 to 15 and has `low` as its low byte. */
  lemma WithLowParts(a: word, low: byte)
    ensures WithLow(a, low) / 0x100 == a / 0x100 && WithLow(a, low) % 0x100 == low
  {
    DivModOf(WithLow(a, low), 0x100, a / 0x100, low);
  }

  /** With an 8-bit accumulator, LDA and the ALU operations change only A's low byte. */
  lemma OperateKeepsHigh(r: Registers, op: AluOp, value: word)
    requires Memory8(r)
    ensures Operate(r, op, value).a / 0x100 == r.a / 0x100
  {
    match op
    case ORA => WithLowParts(r.a, Combine(op, r.a % 0x100, value % 0x100, 8));
    case AND => WithLowParts(r.a, Combine(op, r.a % 0x100, value % 0x100, 8));
    case EOR => WithLowParts(r.a, Combine(op, r.a % 0x100, value % 0x100, 8));
    case ADC =>
      var left := Mask(r.a, true);
      var right := Mask(value, true);
      var carry := if r.p.c then 1 else 0;
      if r.p.d {
        AdcDecimalShape(r, value);
        WithLowParts(r.a, AdcBcd(left, right, carry, true).0 % 0x100);
      } else {
        AdcShape(r, value);
        WithLowParts(r.a, Mask(left + right + carry, true) % 0x100);
      }
    case SBC =>
      var left := Mask(r.a, true);
      var right := Mask(value, true);
      var borrow := if r.p.c then 0 else 1;
      if r.p.d {
        SbcDecimalShape(r, value);
        WithLowParts(r.a, SbcBcd(left, right, borrow, true).0 % 0x100);
      } else {
        SbcShape(r, value);
        WithLowParts(r.a, Mask(left as int - right - borrow, true) % 0x100);
      }
    case LDA => WithLowParts(r.a, value % 0x100);
    case CMP =>
    case BIT =>
  }

  /**
   * With an 8-bit accumulator (E or M set), the instructions that write A
   * (LDA, ORA, AND, EOR, ADC, SBC, the shifts, INC and DEC on A, TXA, TYA and
   * PLA) keep bits 8 to 15 of A.
   */
  lemma NarrowAccumulatorKeepsHigh(m: Machine, instr: Instr)
    requires Memory8(m.regs)
    requires instr.Accumulate? || instr.ModifyA? || (instr.Copy? && instr.dst == A) || (instr.PullReg? && instr.reg == A)
    ensures Perform(m, instr).m.regs.a / 0x100 == m.regs.a / 0x100
  {
    var r := m.regs;
    match instr
    case Accumulate(op, source, cycles8, cycles16) =>
      var (r1, value) := Fetch(r, m.mem, source, true);
      OperateKeepsHigh(r1, op, value);
      assert Perform(m, instr) == Alu(m, op, source, cycles8, cycles16);
    case ModifyA(op) =>
      WithLowParts(r.a, Modified(r, op, Mask(r.a, true), true).1);
      assert Perform(m, instr) == ModifyAccumulator(m, op);
    case Copy(src, _) =>
      WithLowParts(r.a, Value(r, src) % 0x100);
      assert Perform(m, instr) == Transfer(m, src, A);
    case PullReg(_) =>
      var (m1, value) := Pop8(m);
      Pop8Frame(m);
      WithLowParts(r.a, value % 0x100);
      assert Perform(m, instr) == PullRegister(m, A);
  }

  /** A pop moves only SP. */
  lemma Pop8Frame(m: Machine)
    ensures Pop8(m).0 == m.(regs := m.regs.(sp := Pop8(m).0.regs.sp))
  {
  }

  // ---------------------------------------------------------------- properties: what no instruction touches

  /** No instruction changes `totalCycles` or the unknown-opcode tally; `step` and `illegal` do. */
  lemma PerformFrame(m: Machine, instr: Instr)
    ensures Perform(m, instr).m.regs.totalCycles == m.regs.totalCycles && Perform(m, instr).m.unknown == m.unknown
  {
    if DataOp(instr) {
      DataFrame(m, instr);
    } else if RegisterOp(instr) {
      assert PerformRegister(m, instr).m.regs.totalCycles == m.regs.totalCycles;
    } else if ModeOp(instr) {
      ModeFrame(m, instr);
    } else if StackOp(instr) {
      StackFrame(m, instr);
    } else if FlowOp(instr) {
      assert PerformFlow(m, instr).m.regs.totalCycles == m.regs.totalCycles;
    } else if CallOp(instr) {
      CallFrame(m, instr);
    }
  }

  lemma DataFrame(m: Machine, instr: Instr)
    requires DataOp(instr)
    ensures PerformData(m, instr).m.regs.totalCycles == m.regs.totalCycles && PerformData(m, instr).m.unknown == m.unknown
  {
    match instr
    case Accumulate(op, source, _, _) =>
      var (r1, value) := Fetch(m.regs, m.mem, source, Memory8(m.regs));
      if op == ADC || op == SBC {
        AddSubtractFrame(r1, value);
      }
    case _ =>
  }

  lemma ModeFrame(m: Machine, instr: Instr)
    requires ModeOp(instr)
    ensures PerformMode(m, instr).m.regs.totalCycles == m.regs.totalCycles && PerformMode(m, instr).m.unknown == m.unknown
  {
    NormalizeEstablishes(m.regs.(p := m.regs.p.(c := m.regs.e), e := m.regs.p.c));
    NormalizeEstablishes(Skip(m.regs, 1).(p := Cleared(m.regs.p, ProgramByte(m.regs, m.mem, 0))));
    NormalizeEstablishes(Skip(m.regs, 1).(p := Raised(m.regs.p, ProgramByte(m.regs, m.mem, 0))));
    NormalizeEstablishes(Pop8(m).0.regs.(p := Unpack(Pop8(m).1)));
  }

  lemma StackFrame(m: Machine, instr: Instr)
    requires StackOp(instr)
    ensures PerformStack(m, instr).m.regs.totalCycles == m.regs.totalCycles && PerformStack(m, instr).m.unknown == m.unknown
  {
  }

  lemma CallFrame(m: Machine, instr: Instr)
    requires CallOp(instr)
    ensures PerformCall(m, instr).m.regs.totalCycles == m.regs.totalCycles && PerformCall(m, instr).m.unknown == m.unknown
  {
    if instr.ReturnFromInterrupt? {
      var (m1, status) := Pop8(m);
      var (m2, pc) := Pop16(m1);
      NormalizeEstablishes(m2.regs.(p := Unpack(status).(m := true, x := true), pc := pc));
      var (m3, bank) := Pop8(m2);
      NormalizeEstablishes(m3.regs.(p := Unpack(status), pc := pc, pbr := bank));
    }
  }

  // ---------------------------------------------------------------- properties: unknown opcodes

  /**
   * An opcode without a case is tallied in either mode: its count goes up by
   * one, every other count stays, and nothing else changes. Strict mode then
   * throws the message naming it and PC - 1; otherwise it costs 2 cycles.
   */
  lemma UnsupportedTallied(m: Machine, opcode: byte, strict: bool, other: int)
    requires Decode(opcode).None?
    ensures var s := Execute(m, opcode, strict);
      && s.m.regs == m.regs && s.m.mem == m.mem
      && JsMap.Get(s.m.unknown, opcode) == Some(Count(m.unknown, opcode) + 1)
      && (other != opcode ==> JsMap.Get(s.m.unknown, other) == JsMap.Get(m.unknown, other))
      && s.result == if strict then Err(Error(IllegalMessage(opcode, m.regs))) else Ok(2)
  {
    JsMap.GetAfterSet(m.unknown, opcode, Count(m.unknown, opcode) + 1, opcode);
    JsMap.GetAfterSet(m.unknown, opcode, Count(m.unknown, opcode) + 1, other);
  }

  /** Counting an opcode keeps the tally's keys distinct, so it stays a list a `Map` could produce. */
  lemma IllegalKeepsTallyDistinct(m: Machine, opcode: byte, strict: bool)
    requires JsMap.DistinctKeys(m.unknown)
    ensures JsMap.DistinctKeys(Illegal(m, opcode, strict).m.unknown)
  {
    JsMap.SetKeepsDistinct(m.unknown, opcode, Count(m.unknown, opcode) + 1);
  }

  /** Opcode 0x02 fetched from 80:8000 (so PC is 0x8001) in strict mode: "Unsupported opcode 0x02 at 80:8000.". */
  lemma IllegalMessageExample(r: Registers)
    requires r.pbr == 0x80 && r.pc == 0x8001
    ensures IllegalMessage(0x02, r) == "Unsupported opcode 0x" + "02" + " at " + "80" + ":" + "8000" + "."
  {
    DivModOf(r.pc - 1, 0x1_0000, 0, 0x8000);
    HexOpcodeExample();
    HexBankExample();
    HexAddressExample();
  }

  lemma HexOpcodeExample()
    ensures Hex(0x02, 2) == "02"
  {
  }

  lemma HexBankExample()
    ensures Hex(0x80, 2) == "80"
  {
  }

  lemma HexAddressExample()
    ensures Hex(0x8000, 4) == "8000"
  {
    assert JsString.HexString(0x8) == "8";
    assert JsString.HexString(0x80) == "80";
    assert JsString.HexString(0x800) == "800";
    assert JsString.HexString(0x8000) == "8000";
  }

  // ---------------------------------------------------------------- properties: step

  /** A pending NMI is serviced first, through 0xFFFA or 0xFFEA, and the IRQ latch is left as it was. */
  lemma StepServicesNmiFirst(cpu: Cpu, strict: bool)
    requires cpu.nmiPending
    ensures var (after, result) := Step(cpu, strict); var e := Interrupt(cpu.m, true);
      && result == Ok(if cpu.m.regs.e then 7 else 8) && !after.nmiPending && after.irqPending == cpu.irqPending
      && after.m == Counted(e.m, e.cycles)
      && e.m == Vectored(e.m, if cpu.m.regs.e then 0xfffa else 0xffea) && e.m.regs.p.i && !e.m.regs.p.d && e.m.regs.pbr == 0
  {
  }

  /** With I clear and no NMI, a pending IRQ is polled (clearing the latch) and serviced through 0xFFFE or 0xFFEE. */
  lemma StepServicesIrq(cpu: Cpu, strict: bool)
    requires !cpu.nmiPending && cpu.irqPending && !cpu.m.regs.p.i
    ensures var (after, result) := Step(cpu, strict); var e := Interrupt(cpu.m, false);
      && result == Ok(if cpu.m.regs.e then 7 else 8) && !after.nmiPending && !after.irqPending
      && after.m == Counted(e.m, e.cycles)
      && e.m == Vectored(e.m, if cpu.m.regs.e then 0xfffe else 0xffee) && e.m.regs.p.i && !e.m.regs.p.d && e.m.regs.pbr == 0
  {
  }

  /** With I set the IRQ line is not polled: the latch stays set, and the step runs the instruction as if none were pending. */
  lemma StepHoldsMaskedIrq(cpu: Cpu, strict: bool)
    requires !cpu.nmiPending && cpu.irqPending && cpu.m.regs.p.i
    ensures Step(cpu, strict).0.irqPending
    ensures Step(cpu, strict).0.m == Step(cpu.(irqPending := false), strict).0.m
    ensures Step(cpu, strict).1 == Step(cpu.(irqPending := false), strict).1
  {
  }

  /** `execute` leaves `totalCycles` alone. */
  lemma ExecuteKeepsTotalCycles(m: Machine, opcode: byte, strict: bool)
    ensures Execute(m, opcode, strict).m.regs.totalCycles == m.regs.totalCycles
  {
    match Decode(opcode)
    case None =>
    case Some(instr) => PerformFrame(m, instr);
  }

  /** `totalCycles` grows by exactly the cycles `step` returns; a throw leaves it as it was. */
  lemma StepCountsCycles(cpu: Cpu, strict: bool)
    ensures var (after, result) := Step(cpu, strict);
      after.m.regs.totalCycles == cpu.m.regs.totalCycles + (if result.Ok? then result.value else 0)
  {
    var m := cpu.m;
    if !cpu.nmiPending && !(!m.regs.p.i && cpu.irqPending) {
      ExecuteKeepsTotalCycles(m.(regs := Skip(m.regs, 1)), ProgramByte(m.regs, m.mem, 0), strict);
    }
  }

  // ---------------------------------------------------------------- properties: saveState and loadState

  /** `loadState` always establishes the invariant, whatever the snapshot holds. */
  lemma LoadNormalized(state: CpuState)
    ensures Normalized(LoadRegisters(state))
  {
    NormalizeEstablishes(Registers(state.a % 0x1_0000, state.x % 0x1_0000, state.y % 0x1_0000, state.sp % 0x1_0000,
                                   state.d % 0x1_0000, state.dbr % 0x100, state.pbr % 0x100, Unpack(state.p % 0x100),
                                   state.e, state.pc % 0x1_0000, state.totalCycles % 0x1_0000_0000));
  }

  /** `loadState` of `saveState` gives back the registers, as long as the invariant holds and the cycle count fits 32 bits. */
  lemma SaveLoadRoundTrip(r: Registers, unknown: JsMap.Entries<int, int>)
    requires Normalized(r) && r.totalCycles < 0x1_0000_0000
    ensures LoadRegisters(Save(r, unknown)) == r
  {
    var state := Save(r, unknown);
    assert Pack(r.p) % 0x100 == Pack(r.p);
    UnpackPack(r.p);
    var raw := Registers(state.a % 0x1_0000, state.x % 0x1_0000, state.y % 0x1_0000, state.sp % 0x1_0000,
                         state.d % 0x1_0000, state.dbr % 0x100, state.pbr % 0x100, Unpack(state.p % 0x100),
                         state.e, state.pc % 0x1_0000, state.totalCycles % 0x1_0000_0000);
    assert raw == r;
    NormalizeFixes(r);
  }

  /** The tally survives the round trip through its entry list, order included. */
  lemma SaveLoadTally(r: Registers, unknown: JsMap.Entries<int, int>)
    requires JsMap.DistinctKeys(unknown)
    ensures JsMap.FromEntries(Save(r, unknown).unknownOpcodes) == unknown
  {
    JsMap.FromDistinctEntries(unknown);
  }
}
