/**
 * The 65C816 interpreter of src/core/snes/cpu65816.mjs as a class over the
 * processor's bus. Every method does what its JavaScript counterpart does,
 * step by step, and its contract ties the new state to the instruction
 * semantics of module Wdc65816: `State()` is the machine those functions
 * take, read off the fields and the 16 MiB the bus answers for.
 */
module Cpu65816 {
  import opened Bits
  import opened Wrappers
  import opened Wdc65816
  import JsMap
  import CpuBus

  /** Two fetches move PC as one fetch of two bytes does. */
  lemma SkipTwice(r: Registers, k: nat)
    ensures Skip(Skip(r, k), 1) == Skip(r, k + 1)
  {
  }

  /** `x >>> 4 * (k + 1)` is `(x >>> 4 * k) >>> 4`. */
  lemma ShiftedAgain(x: nat, k: nat)
    ensures Pow16(k) > 0 && x / Pow16(k + 1) == x / Pow16(k) / 0x10
  {
    Pow16Positive(k);
    var p := Pow16(k);
    var q := x / p;
    Compose(x, p, q, x % p, q / 0x10, q % 0x10);
    DivModOf(x, 0x10 * p, q / 0x10, q % 0x10 * p + x % p);
  }

  /** The arithmetic of `ShiftedAgain`: a digit below the quotient's digit stays below the next power. */
  lemma Compose(x: int, p: int, q: int, s: int, high: int, digit: int)
    requires p > 0 && x == q * p + s && 0 <= s < p && q == high * 0x10 + digit && 0 <= digit < 0x10
    ensures x == high * (0x10 * p) + (digit * p + s) && 0 <= digit * p + s < 0x10 * p
  {
    assert q * p == high * (0x10 * p) + digit * p;
    assert digit * p <= 15 * p by {
      assert (15 - digit) * p >= 0;
    }
  }

  lemma {:induction false} Pow16Positive(k: nat)
    ensures Pow16(k) > 0
  {
    if k > 0 {
      Pow16Positive(k - 1);
    }
  }

  /** Setting digit `k` into a result below `16^k` and spelling the rest above it. */
  lemma Regroup(result: int, p: int, digit: int, rest: int)
    ensures result + p * (digit + 0x10 * rest) == (result + digit * p) + (0x10 * p) * rest
  {
  }

  /** `x >>> 4 * k`. */
  function Shifted(x: nat, k: nat): nat
  {
    if k == 0 then x else Shifted(x, k - 1) / 0x10
  }

  /** The loops of `adcBcd` and `sbcBcd` shift by dividing by `16^index`. */
  lemma {:induction false} ShiftedIs(x: nat, k: nat)
    ensures Pow16(k) > 0 && x / Pow16(k) == Shifted(x, k)
  {
    if k > 0 {
      ShiftedIs(x, k - 1);
      ShiftedAgain(x, k - 1);
    }
  }

  /**
   * The loop of `adcBcd` after `index` digits: the digits written so far,
   * below `16^index`, and the digit loop run on what is left above them make
   * up the whole result and carry.
   */
  ghost predicate AddedSoFar(left: nat, right: nat, carryIn: nat, digits: nat, index: nat, sum: int, carry: nat)
  {
    var p := Pow16(index);
    && index <= digits && 0 <= sum < p
    && var rest := DecimalAdd(Shifted(left, index), Shifted(right, index), carry, digits - index);
       DecimalAdd(left, right, carryIn, digits) == (sum + p * rest.0, rest.1)
  }

  /** One pass of the loop of `adcBcd`, with `shift` for `1 << 4 * index` and `adjusted` the digit sum after the decimal adjustment. */
  lemma AddStep(left: nat, right: nat, carryIn: nat, digits: nat, index: nat, sum: int, carry: nat, shift: int, adjusted: int)
    requires AddedSoFar(left, right, carryIn, digits, index, sum, carry) && index < digits && shift == Pow16(index)
    requires var nibble := Shifted(left, index) % 0x10 + Shifted(right, index) % 0x10 + carry; adjusted == if nibble > 9 then nibble + 6 else nibble
    ensures AddedSoFar(left, right, carryIn, digits, index + 1, sum + adjusted % 0x10 * shift, if adjusted > 0xf then 1 else 0)
  {
    var p := Pow16(index);
    var l := Shifted(left, index);
    var r := Shifted(right, index);
    var rest := DecimalAdd(l / 0x10, r / 0x10, if adjusted > 0xf then 1 else 0, digits - index - 1);
    DecimalAddOnce(l, r, carry, digits - index);
    Placed(sum, p, adjusted % 0x10, rest.0, DecimalAdd(left, right, carryIn, digits).0);
  }

  /** One digit of the digit loop of `adcBcd`. */
  lemma DecimalAddOnce(left: nat, right: nat, carry: nat, digits: nat)
    requires digits > 0
    ensures var nibble := left % 0x10 + right % 0x10 + carry;
      var adjusted := if nibble > 9 then nibble + 6 else nibble;
      var rest := DecimalAdd(left / 0x10, right / 0x10, if adjusted > 0xf then 1 else 0, digits - 1);
      DecimalAdd(left, right, carry, digits) == (adjusted % 0x10 + 0x10 * rest.0, rest.1)
  {
  }

  /** The arithmetic of one loop step: the digit moves from the part still to come into the part written. */
  lemma Placed(sum: int, p: int, digit: int, rest: int, whole: int)
    requires 0 <= sum < p && 0 <= digit < 0x10 && whole == sum + p * (digit + 0x10 * rest)
    ensures whole == (sum + digit * p) + (0x10 * p) * rest && 0 <= sum + digit * p < 0x10 * p
  {
    Regroup(sum, p, digit, rest);
    DigitBelow(sum, p, digit);
  }

  /** The loop of `sbcBcd` after `index` digits, as `AddedSoFar` for `adcBcd`. */
  ghost predicate SubtractedSoFar(left: nat, right: nat, borrowIn: nat, digits: nat, index: nat, difference: int, borrow: nat)
  {
    var p := Pow16(index);
    && index <= digits && 0 <= difference < p
    && var rest := DecimalSubtract(Shifted(left, index), Shifted(right, index), borrow, digits - index);
       DecimalSubtract(left, right, borrowIn, digits) == (difference + p * rest.0, rest.1)
  }

  /** One pass of the loop of `sbcBcd`: `nibble` is the digit difference, `adjusted` the digit written. */
  lemma SubtractStep(left: nat, right: nat, borrowIn: nat, digits: nat, index: nat, difference: int, borrow: nat,
                     shift: int, nibble: int, adjusted: int)
    requires SubtractedSoFar(left, right, borrowIn, digits, index, difference, borrow) && index < digits && shift == Pow16(index)
    requires nibble == Shifted(left, index) % 0x10 - Shifted(right, index) % 0x10 - borrow && adjusted == if nibble < 0 then nibble - 6 else nibble
    ensures SubtractedSoFar(left, right, borrowIn, digits, index + 1, difference + adjusted % 0x10 * shift, if nibble < 0 then 1 else 0)
  {
    var p := Pow16(index);
    var l := Shifted(left, index);
    var r := Shifted(right, index);
    var rest := DecimalSubtract(l / 0x10, r / 0x10, if nibble < 0 then 1 else 0, digits - index - 1);
    DecimalSubtractOnce(l, r, borrow, digits - index);
    Placed(difference, p, adjusted % 0x10, rest.0, DecimalSubtract(left, right, borrowIn, digits).0);
  }

  /** One digit of the digit loop of `sbcBcd`. */
  lemma DecimalSubtractOnce(left: nat, right: nat, borrow: nat, digits: nat)
    requires digits > 0
    ensures var nibble := left % 0x10 - right % 0x10 - borrow;
      var adjusted := if nibble < 0 then nibble - 6 else nibble;
      var rest := DecimalSubtract(left / 0x10, right / 0x10, if nibble < 0 then 1 else 0, digits - 1);
      DecimalSubtract(left, right, borrow, digits) == (adjusted % 0x10 + 0x10 * rest.0, rest.1)
  {
  }

  /** What the loop of `adcBcd` still computes from digit `index` on, with `sum` written so far and `carry` coming in. */
  ghost function AddFrom(left: nat, right: nat, digits: nat, index: nat, sum: int, carry: nat): (int, nat)
    decreases digits - index
  {
    if index >= digits then (sum, carry)
    else
      var nibble := Shifted(left, index) % 0x10 + Shifted(right, index) % 0x10 + carry;
      var adjusted := if nibble > 9 then nibble + 6 else nibble;
      AddFrom(left, right, digits, index + 1, sum + adjusted % 0x10 * Pow16(index), if adjusted > 0xf then 1 else 0)
  }

  /** From any point where `AddedSoFar` holds, the loop of `adcBcd` ends with the digit loop's result and carry. */
  lemma {:induction false} AddFromIs(left: nat, right: nat, carryIn: nat, digits: nat, index: nat, sum: int, carry: nat)
    requires AddedSoFar(left, right, carryIn, digits, index, sum, carry)
    ensures AddFrom(left, right, digits, index, sum, carry) == DecimalAdd(left, right, carryIn, digits)
    decreases digits - index
  {
    if index < digits {
      var nibble := Shifted(left, index) % 0x10 + Shifted(right, index) % 0x10 + carry;
      var adjusted := if nibble > 9 then nibble + 6 else nibble;
      AddStep(left, right, carryIn, digits, index, sum, carry, Pow16(index), adjusted);
      AddFromIs(left, right, carryIn, digits, index + 1, sum + adjusted % 0x10 * Pow16(index), if adjusted > 0xf then 1 else 0);
    }
  }

  /** The loop of `adcBcd` computes the digit loop `DecimalAdd`. */
  lemma AddLoop(left: nat, right: nat, carryIn: nat, digits: nat)
    ensures AddFrom(left, right, digits, 0, 0, carryIn) == DecimalAdd(left, right, carryIn, digits)
  {
    AddFromIs(left, right, carryIn, digits, 0, 0, carryIn);
  }

  /** What the loop of `sbcBcd` still computes from digit `index` on. */
  ghost function SubtractFrom(left: nat, right: nat, digits: nat, index: nat, difference: int, borrow: nat): (int, nat)
    decreases digits - index
  {
    if index >= digits then (difference, borrow)
    else
      var nibble := Shifted(left, index) % 0x10 - Shifted(right, index) % 0x10 - borrow;
      var adjusted := if nibble < 0 then nibble - 6 else nibble;
      SubtractFrom(left, right, digits, index + 1, difference + adjusted % 0x10 * Pow16(index), if nibble < 0 then 1 else 0)
  }

  lemma {:induction false} SubtractFromIs(left: nat, right: nat, borrowIn: nat, digits: nat, index: nat, difference: int, borrow: nat)
    requires SubtractedSoFar(left, right, borrowIn, digits, index, difference, borrow)
    ensures SubtractFrom(left, right, digits, index, difference, borrow) == DecimalSubtract(left, right, borrowIn, digits)
    decreases digits - index
  {
    if index < digits {
      var nibble := Shifted(left, index) % 0x10 - Shifted(right, index) % 0x10 - borrow;
      var adjusted := if nibble < 0 then nibble - 6 else nibble;
      SubtractStep(left, right, borrowIn, digits, index, difference, borrow, Pow16(index), nibble, adjusted);
      SubtractFromIs(left, right, borrowIn, digits, index + 1, difference + adjusted % 0x10 * Pow16(index), if nibble < 0 then 1 else 0);
    }
  }

  /** The loop of `sbcBcd` computes the digit loop `DecimalSubtract`. */
  lemma SubtractLoop(left: nat, right: nat, borrowIn: nat, digits: nat)
    ensures SubtractFrom(left, right, digits, 0, 0, borrowIn) == DecimalSubtract(left, right, borrowIn, digits)
  {
    SubtractFromIs(left, right, borrowIn, digits, 0, 0, borrowIn);
  }

  /** A digit placed above a result below `p` stays below `16 * p`. */
  lemma DigitBelow(sum: int, p: int, digit: int)
    requires 0 <= sum < p && 0 <= digit < 0x10
    ensures 0 <= sum + digit * p < 0x10 * p
  {
    assert (15 - digit) * p >= 0;
  }

  class CPU65816 {
    const bus: CpuBus.Bus
    const strictOpcodes: bool
    var regs: Registers
    var unknownOpcodes: JsMap.Entries<int, int>

    /** The bus answers for the whole 24-bit address space. */
    ghost predicate Valid()
    {
      bus.cells.Length == 0x100_0000
    }

    ghost function State(): Machine
      requires Valid()
      reads this, bus.cells
    {
      Machine(regs, bus.cells[..], unknownOpcodes)
    }

    /** `new CPU65816(bus, { strictOpcodes })`: an empty tally, then `reset()`. */
    constructor (bus: CpuBus.Bus, strictOpcodes: bool)
      requires bus.cells.Length == 0x100_0000
      ensures Valid() && this.bus == bus && this.strictOpcodes == strictOpcodes
      ensures regs == Wdc65816.Reset(bus.cells[..]) && unknownOpcodes == []
    {
      this.bus := bus;
      this.strictOpcodes := strictOpcodes;
      unknownOpcodes := [];
      new;
      Reset();
    }

    /** `reset()`: emulation mode with P = I | M | X; PC from the vector at 0xFFFC. */
    method Reset()
      requires Valid()
      modifies this
      ensures regs == Wdc65816.Reset(bus.cells[..]) && unknownOpcodes == old(unknownOpcodes)
    {
      var pc := Read16Bank0(0xfffc);
      regs := Registers(0, 0, 0, 0x1ff, 0, 0, 0, Unpack(0x34), true, pc, 7);
    }

    // ---------------------------------------------------------------- bus access

    /** `read8`. */
    method Read8(address: long) returns (value: byte)
      requires Valid()
      ensures value == bus.cells[address]
    {
      value := bus.Read(address);
    }

    /** `write8`. */
    method Write8(address: long, value: byte)
      requires Valid()
      modifies bus.cells
      ensures bus.cells[..] == old(bus.cells[..])[address := value]
    {
      bus.Write(address, value);
    }

    method Read16Bank0(address: word) returns (value: word)
      requires Valid()
      ensures value == Bank0Word(bus.cells[..], address)
    {
      var low := Read8(address);
      var high := Read8((address + 1) % 0x1_0000);
      value := low as int + 0x100 * high as int;
    }

    method Read16Wrapped(address: long) returns (value: word)
      requires Valid()
      ensures value == Wdc65816.Read16Wrapped(bus.cells[..], address)
    {
      var bank := address / 0x1_0000 * 0x1_0000;
      var low := Read8(bank + address % 0x1_0000);
      var high := Read8(bank + (address + 1) % 0x1_0000);
      value := low as int + 0x100 * high as int;
    }

    method Read16Linear(address: long) returns (value: word)
      requires Valid()
      ensures value == Wdc65816.Read16Linear(bus.cells[..], address)
    {
      var low := Read8(address);
      var high := Read8((address + 1) % 0x100_0000);
      value := low as int + 0x100 * high as int;
    }

    method Write16Wrapped(address: long, value: word)
      requires Valid()
      modifies bus.cells
      ensures bus.cells[..] == Wdc65816.Write16Wrapped(old(bus.cells[..]), address, value)
    {
      var bank := address / 0x1_0000 * 0x1_0000;
      Write8(bank + address % 0x1_0000, value % 0x100);
      Write8(bank + (address + 1) % 0x1_0000, value / 0x100);
    }

    method Write16Linear(address: long, value: word)
      requires Valid()
      modifies bus.cells
      ensures bus.cells[..] == Wdc65816.Write16Linear(old(bus.cells[..]), address, value)
    {
      Write8(address, value % 0x100);
      Write8((address + 1) % 0x100_0000, value / 0x100);
    }

    /** `readDataByWidth` and `readIndexByWidth`, the width passed in. */
    method ReadByWidth(address: long, narrow: bool, linear: bool) returns (value: word)
      requires Valid()
      ensures value == ReadSized(bus.cells[..], address, narrow, linear)
    {
      if narrow {
        value := Read8(address);
      } else if linear {
        value := Read16Linear(address);
      } else {
        value := Read16Wrapped(address);
      }
    }

    /** `writeByWidth` and `writeIndexByWidth`, the width passed in. */
    method WriteByWidth(address: long, value: word, narrow: bool, linear: bool)
      requires Valid()
      modifies bus.cells
      ensures bus.cells[..] == WriteSized(old(bus.cells[..]), address, value, narrow, linear)
    {
      if narrow {
        Write8(address, value % 0x100);
      } else if linear {
        Write16Linear(address, value);
      } else {
        Write16Wrapped(address, value);
      }
    }

    // ---------------------------------------------------------------- operand bytes

    /** `fetch8`: the byte at PBR:PC; PC wraps inside the bank. */
    method Fetch8() returns (value: byte)
      requires Valid()
      modifies this
      ensures value == ProgramByte(old(regs), bus.cells[..], 0)
      ensures regs == Skip(old(regs), 1) && unknownOpcodes == old(unknownOpcodes)
    {
      value := Read8(regs.pbr * 0x1_0000 + regs.pc);
      regs := regs.(pc := (regs.pc + 1) % 0x1_0000);
    }

    method Fetch16() returns (value: word)
      requires Valid()
      modifies this
      ensures value == Operand16(old(regs), bus.cells[..])
      ensures regs == Skip(old(regs), 2) && unknownOpcodes == old(unknownOpcodes)
    {
      var low := Fetch8();
      var high := Fetch8();
      SkipTwice(old(regs), 1);
      value := low as int + 0x100 * high as int;
    }

    method Fetch24() returns (value: long)
      requires Valid()
      modifies this
      ensures value == Operand24(old(regs), bus.cells[..])
      ensures regs == Skip(old(regs), 3) && unknownOpcodes == old(unknownOpcodes)
    {
      var low := Fetch16();
      var high := Fetch8();
      SkipTwice(old(regs), 2);
      value := low as int + 0x1_0000 * high as int;
    }

    // ---------------------------------------------------------------- stack

    /** `push8`. */
    method Push8(value: byte)
      requires Valid()
      modifies this, bus.cells
      ensures State() == Wdc65816.Push8(old(State()), value)
    {
      if regs.e {
        Write8(0x100 + regs.sp % 0x100, value);
        regs := regs.(sp := (regs.sp - 1) % 0x100 + 0x100);
      } else {
        Write8(regs.sp, value);
        regs := regs.(sp := (regs.sp - 1) % 0x1_0000);
      }
    }

    /** `pop8`. */
    method Pop8() returns (value: byte)
      requires Valid()
      modifies this
      ensures (State(), value) == Wdc65816.Pop8(old(State()))
    {
      if regs.e {
        regs := regs.(sp := (regs.sp + 1) % 0x100 + 0x100);
        value := Read8(0x100 + regs.sp % 0x100);
      } else {
        regs := regs.(sp := (regs.sp + 1) % 0x1_0000);
        value := Read8(regs.sp);
      }
    }

    /** `push16`. */
    method Push16(value: word)
      requires Valid()
      modifies this, bus.cells
      ensures State() == Wdc65816.Push16(old(State()), value)
    {
      Push8(value / 0x100);
      Push8(value % 0x100);
    }

    /** `pop16`. */
    method Pop16() returns (value: word)
      requires Valid()
      modifies this
      ensures (State(), value) == Wdc65816.Pop16(old(State()))
    {
      var low := Pop8();
      var high := Pop8();
      value := low as int + 0x100 * high as int;
    }

    /** `pushAByWidth`, `pushXByWidth` and `pushYByWidth`, the width passed in. */
    method PushSized(value: word, narrow: bool)
      requires Valid()
      modifies this, bus.cells
      ensures State() == Wdc65816.PushSized(old(State()), value, narrow)
    {
      if narrow {
        Push8(value % 0x100);
      } else {
        Push16(value);
      }
    }

    /** The pops of `pullAByWidth`, `pullXByWidth` and `pullYByWidth`. */
    method PopSized(narrow: bool) returns (value: word)
      requires Valid()
      modifies this
      ensures (State(), value) == Wdc65816.PopSized(old(State()), narrow)
    {
      if narrow {
        value := Pop8();
      } else {
        value := Pop16();
      }
    }

    // ---------------------------------------------------------------- addressing helpers

    /** `addrDirectData`: D plus the offset byte, inside bank 0. */
    method AddrDirect() returns (address: long)
      requires Valid()
      modifies this
      ensures address == Address(old(regs), bus.cells[..], Direct)
      ensures regs == Skip(old(regs), Length(Direct)) && unknownOpcodes == old(unknownOpcodes)
    {
      var offset := Fetch8();
      address := (regs.d + offset) % 0x1_0000;
    }

    /** `addrDirectXData`. */
    method AddrDirectX() returns (address: long)
      requires Valid()
      modifies this
      ensures address == Address(old(regs), bus.cells[..], DirectX)
      ensures regs == Skip(old(regs), Length(DirectX)) && unknownOpcodes == old(unknownOpcodes)
    {
      var offset := Fetch8();
      address := (regs.d + offset + IndexRegister(regs, false)) % 0x1_0000;
    }

    /** `addrDirectYData`. */
    method AddrDirectY() returns (address: long)
      requires Valid()
      modifies this
      ensures address == Address(old(regs), bus.cells[..], DirectY)
      ensures regs == Skip(old(regs), Length(DirectY)) && unknownOpcodes == old(unknownOpcodes)
    {
      var offset := Fetch8();
      address := (regs.d + offset + IndexRegister(regs, true)) % 0x1_0000;
    }

    /** `addrDirectIndirect`: a two-byte pointer in bank 0, in the data bank. */
    method AddrDirectIndirect() returns (address: long)
      requires Valid()
      modifies this
      ensures address == Address(old(regs), bus.cells[..], DirectIndirect)
      ensures regs == Skip(old(regs), Length(DirectIndirect)) && unknownOpcodes == old(unknownOpcodes)
    {
      var offset := Fetch8();
      var pointer := (regs.d + offset) % 0x1_0000;
      var base := Read16Bank0(pointer);
      address := regs.dbr * 0x1_0000 + base;
    }

    /** `addrDirectIndirectY`. */
    method AddrDirectIndirectY() returns (address: long)
      requires Valid()
      modifies this
      ensures address == Address(old(regs), bus.cells[..], DirectIndirectY)
      ensures regs == Skip(old(regs), Length(DirectIndirectY)) && unknownOpcodes == old(unknownOpcodes)
    {
      var offset := Fetch8();
      var pointer := (regs.d + offset) % 0x1_0000;
      var base := Read16Bank0(pointer);
      address := (regs.dbr * 0x1_0000 + base + IndexRegister(regs, true)) % 0x100_0000;
    }

    /** `addrDirectIndirectLong`: a three-byte pointer in bank 0. */
    method AddrDirectIndirectLong() returns (address: long)
      requires Valid()
      modifies this
      ensures address == Address(old(regs), bus.cells[..], DirectIndirectLong)
      ensures regs == Skip(old(regs), Length(DirectIndirectLong)) && unknownOpcodes == old(unknownOpcodes)
    {
      var offset := Fetch8();
      var pointer := (regs.d + offset) % 0x1_0000;
      var base := Read16Bank0(pointer);
      var bank := Read8((pointer + 2) % 0x1_0000);
      address := base + 0x1_0000 * bank as int;
    }

    /** `addrDirectIndirectLongY`. */
    method AddrDirectIndirectLongY() returns (address: long)
      requires Valid()
      modifies this
      ensures address == Address(old(regs), bus.cells[..], DirectIndirectLongY)
      ensures regs == Skip(old(regs), Length(DirectIndirectLongY)) && unknownOpcodes == old(unknownOpcodes)
    {
      var offset := Fetch8();
      var pointer := (regs.d + offset) % 0x1_0000;
      var base := Read16Bank0(pointer);
      var bank := Read8((pointer + 2) % 0x1_0000);
      address := (base + 0x1_0000 * bank as int + IndexRegister(regs, true)) % 0x100_0000;
    }

    /** `addrAbsoluteData`. */
    method AddrAbsolute() returns (address: long)
      requires Valid()
      modifies this
      ensures address == Address(old(regs), bus.cells[..], Absolute)
      ensures regs == Skip(old(regs), Length(Absolute)) && unknownOpcodes == old(unknownOpcodes)
    {
      var operand := Fetch16();
      address := regs.dbr * 0x1_0000 + operand;
    }

    /** `addrAbsoluteXData`. */
    method AddrAbsoluteX() returns (address: long)
      requires Valid()
      modifies this
      ensures address == Address(old(regs), bus.cells[..], AbsoluteX)
      ensures regs == Skip(old(regs), Length(AbsoluteX)) && unknownOpcodes == old(unknownOpcodes)
    {
      var operand := Fetch16();
      address := (regs.dbr * 0x1_0000 + operand + IndexRegister(regs, false)) % 0x100_0000;
    }

    /** `addrAbsoluteYData`. */
    method AddrAbsoluteY() returns (address: long)
      requires Valid()
      modifies this
      ensures address == Address(old(regs), bus.cells[..], AbsoluteY)
      ensures regs == Skip(old(regs), Length(AbsoluteY)) && unknownOpcodes == old(unknownOpcodes)
    {
      var operand := Fetch16();
      address := (regs.dbr * 0x1_0000 + operand + IndexRegister(regs, true)) % 0x100_0000;
    }

    /** `addrLong`. */
    method AddrLong() returns (address: long)
      requires Valid()
      modifies this
      ensures address == Address(old(regs), bus.cells[..], Long)
      ensures regs == Skip(old(regs), Length(Long)) && unknownOpcodes == old(unknownOpcodes)
    {
      address := Fetch24();
    }

    /** `addrLongX`. */
    method AddrLongX() returns (address: long)
      requires Valid()
      modifies this
      ensures address == Address(old(regs), bus.cells[..], LongX)
      ensures regs == Skip(old(regs), Length(LongX)) && unknownOpcodes == old(unknownOpcodes)
    {
      var base := Fetch24();
      address := (base + IndexRegister(regs, false)) % 0x100_0000;
    }

    /** `addrStackRelativeIndirectY`: the pointer sits at SP plus the offset, SP in page 1 in emulation mode. */
    method AddrStackRelativeIndirectY() returns (address: long)
      requires Valid()
      modifies this
      ensures address == Address(old(regs), bus.cells[..], StackRelativeIndirectY)
      ensures regs == Skip(old(regs), Length(StackRelativeIndirectY)) && unknownOpcodes == old(unknownOpcodes)
    {
      var offset := Fetch8();
      var sp := if regs.e then 0x100 + regs.sp % 0x100 else regs.sp;
      var pointer := (sp + offset) % 0x1_0000;
      var base := Read16Bank0(pointer);
      address := (regs.dbr * 0x1_0000 + base + IndexRegister(regs, true)) % 0x100_0000;
    }

    /** The addressing helper each `switch` case names. */
    method Resolve(mode: Mode) returns (address: long)
      requires Valid()
      modifies this
      ensures address == Address(old(regs), bus.cells[..], mode)
      ensures regs == Skip(old(regs), Length(mode)) && unknownOpcodes == old(unknownOpcodes)
    {
      match mode
      case Direct => address := AddrDirect();
      case DirectX => address := AddrDirectX();
      case DirectY => address := AddrDirectY();
      case DirectIndirect => address := AddrDirectIndirect();
      case DirectIndirectY => address := AddrDirectIndirectY();
      case DirectIndirectLong => address := AddrDirectIndirectLong();
      case DirectIndirectLongY => address := AddrDirectIndirectLongY();
      case Absolute => address := AddrAbsolute();
      case AbsoluteX => address := AddrAbsoluteX();
      case AbsoluteY => address := AddrAbsoluteY();
      case Long => address := AddrLong();
      case LongX => address := AddrLongX();
      case StackRelativeIndirectY => address := AddrStackRelativeIndirectY();
    }

    /** `readImmediateByWidth`, `readImmediateIndexByWidth`, or `readDataByWidth` / `readIndexByWidth` at a helper's address. */
    method ReadOperand(source: Source, narrow: bool) returns (value: word)
      requires Valid()
      modifies this
      ensures (regs, value) == Fetch(old(regs), bus.cells[..], source, narrow) && unknownOpcodes == old(unknownOpcodes)
    {
      match source
      case Immediate =>
        if narrow {
          value := Fetch8();
        } else {
          value := Fetch16();
        }
      case At(mode) =>
        var address := Resolve(mode);
        value := ReadByWidth(address, narrow, Linear(mode));
    }

    // ---------------------------------------------------------------- flags and registers

    /** `setZN(value, width)`. */
    method SetZN(value: int, narrow: bool)
      modifies this
      ensures regs == old(regs).(p := Wdc65816.SetZN(old(regs.p), value, narrow)) && unknownOpcodes == old(unknownOpcodes)
    {
      var masked := Mask(value, narrow);
      regs := regs.(p := regs.p.(z := masked == 0));
      regs := regs.(p := regs.p.(n := masked >= Top(narrow)));
    }

    /** `setFlag(bit, enabled)`. */
    method SetFlag(flag: FlagName, enabled: bool)
      modifies this
      ensures regs == old(regs).(p := SetFlagTo(old(regs.p), flag, enabled)) && unknownOpcodes == old(unknownOpcodes)
    {
      match flag
      case NFlag => regs := regs.(p := regs.p.(n := enabled));
      case VFlag => regs := regs.(p := regs.p.(v := enabled));
      case ZFlag => regs := regs.(p := regs.p.(z := enabled));
      case CFlag => regs := regs.(p := regs.p.(c := enabled));
      case IFlag => regs := regs.(p := regs.p.(i := enabled));
    }

    /** `normalizeFlagsAndRegisters()`. */
    method NormalizeFlagsAndRegisters()
      modifies this
      ensures regs == Normalize(old(regs)) && unknownOpcodes == old(unknownOpcodes)
    {
      if regs.e {
        regs := regs.(p := regs.p.(m := true, x := true));
        regs := regs.(x := regs.x % 0x100, y := regs.y % 0x100);
        regs := regs.(sp := regs.sp % 0x100 + 0x100);
      }
      if regs.p.x {
        regs := regs.(x := regs.x % 0x100, y := regs.y % 0x100);
      }
    }

    /** `loadA(value)`: an 8-bit accumulator keeps its high byte. */
    method LoadA(value: word)
      modifies this
      ensures regs == Wdc65816.LoadA(old(regs), value) && unknownOpcodes == old(unknownOpcodes)
    {
      if Memory8(regs) {
        WithLowParts(regs.a, value % 0x100);
        regs := regs.(a := WithLow(regs.a, value % 0x100));
        SetZN(regs.a % 0x100, true);
      } else {
        regs := regs.(a := value);
        SetZN(regs.a, false);
      }
    }

    /** `loadX(value)` and `loadY(value)`. */
    method LoadIndex(useY: bool, value: word)
      modifies this
      ensures regs == Wdc65816.LoadIndex(old(regs), useY, value) && unknownOpcodes == old(unknownOpcodes)
    {
      var narrow := Index8(regs);
      var masked := Mask(value, narrow);
      if useY {
        regs := regs.(y := masked);
      } else {
        regs := regs.(x := masked);
      }
      SetZN(masked, narrow);
    }

    /** The load half of the transfers and of PLA, PLX and PLY. */
    method LoadRegister(reg: Reg, value: word)
      modifies this
      ensures regs == Load(old(regs), reg, value) && unknownOpcodes == old(unknownOpcodes)
    {
      if reg == A {
        LoadA(value);
      } else {
        LoadIndex(reg == Y, value);
      }
    }

    /** `ora`, `and` and `eor`. */
    method Logical(op: AluOp, value: word)
      modifies this
      ensures regs == Wdc65816.Logical(old(regs), op, value) && unknownOpcodes == old(unknownOpcodes)
    {
      Pow2Values();
      if Memory8(regs) {
        var result := Combine(op, regs.a % 0x100, value % 0x100, 8);
        regs := regs.(a := WithLow(regs.a, result));
        SetZN(result, true);
      } else {
        regs := regs.(a := Combine(op, regs.a, value, 16));
        SetZN(regs.a, false);
      }
    }

    /** The sum `adc` stores: binary, or digit by digit through `adcBcd` when D is set. */
    method AddValues(left: nat, right: nat, carryIn: nat, narrow: bool) returns (result: nat, carryOut: bool)
      ensures (result, carryOut) == (if regs.p.d then Wdc65816.AdcBcd(left, right, carryIn, narrow)
                                     else (Mask(left + right + carryIn, narrow), left + right + carryIn > Limit(narrow) - 1))
    {
      if regs.p.d {
        result, carryOut := AdcBcd(left, right, carryIn, narrow);
      } else {
        var sum := left + right + carryIn;
        result, carryOut := Mask(sum, narrow), sum > Limit(narrow) - 1;
      }
    }

    /** The difference `sbc` stores: binary, or digit by digit through `sbcBcd` when D is set. */
    method SubtractValues(left: nat, right: nat, borrowIn: nat, narrow: bool) returns (result: nat, carryOut: bool)
      ensures (result, carryOut) == (if regs.p.d then Wdc65816.SbcBcd(left, right, borrowIn, narrow)
                                     else (Mask(left - right - borrowIn, narrow), left - right - borrowIn >= 0))
    {
      if regs.p.d {
        result, carryOut := SbcBcd(left, right, borrowIn, narrow);
      } else {
        var difference: int := left - right - borrowIn;
        result, carryOut := Mask(difference, narrow), difference >= 0;
      }
    }

    /** `adc(value)`: V always comes from the binary sum. */
    method Adc(value: word)
      modifies this
      ensures regs == Wdc65816.Adc(old(regs), value) && unknownOpcodes == old(unknownOpcodes)
    {
      var narrow := Memory8(regs);
      var left := Mask(regs.a, narrow);
      var right := Mask(value, narrow);
      var carryIn := if regs.p.c then 1 else 0;
      var binary := Mask(left + right + carryIn, narrow);
      var result, carryOut := AddValues(left, right, carryIn, narrow);
      regs := regs.(p := regs.p.(c := carryOut, v := AddOverflow(left, right, binary, narrow)));
      regs := regs.(a := if narrow then WithLow(regs.a, result % 0x100) else result);
      SetZN(result, narrow);
    }

    /** `sbc(value)`: borrow `1 - C`; V always comes from the binary difference. */
    method Sbc(value: word)
      modifies this
      ensures regs == Wdc65816.Sbc(old(regs), value) && unknownOpcodes == old(unknownOpcodes)
    {
      var narrow := Memory8(regs);
      var left := Mask(regs.a, narrow);
      var right := Mask(value, narrow);
      var borrowIn := if regs.p.c then 0 else 1;
      var binary := Mask(left as int - right - borrowIn, narrow);
      var result, carryOut := SubtractValues(left, right, borrowIn, narrow);
      regs := regs.(p := regs.p.(c := carryOut, v := SubtractOverflow(left, right, binary, narrow)));
      regs := regs.(a := if narrow then WithLow(regs.a, result % 0x100) else result);
      SetZN(result, narrow);
    }

    /** `compare(left, right, width)`. */
    method Compare(left: word, right: word, narrow: bool)
      modifies this
      ensures regs == old(regs).(p := Wdc65816.Compare(old(regs.p), left, right, narrow)) && unknownOpcodes == old(unknownOpcodes)
    {
      var difference := Mask(left - right, narrow);
      regs := regs.(p := regs.p.(c := left >= right));
      SetZN(difference, narrow);
    }

    /** `bitMemory(value)`. */
    method BitMemory(value: word)
      modifies this
      ensures regs == old(regs).(p := BitTest(old(regs), value)) && unknownOpcodes == old(unknownOpcodes)
    {
      Pow2Values();
      var narrow := Memory8(regs);
      var a := Mask(regs.a, narrow);
      var data := Mask(value, narrow);
      regs := regs.(p := regs.p.(z := And(a, data, Width(narrow)) == 0));
      regs := regs.(p := regs.p.(n := data >= Top(narrow)));
      regs := regs.(p := regs.p.(v := (data / (Top(narrow) / 2)) % 2 == 1));
    }

    /** What each accumulator-width `switch` case does with the operand it read. */
    method Operate(op: AluOp, value: word)
      modifies this
      ensures regs == Wdc65816.Operate(old(regs), op, value) && unknownOpcodes == old(unknownOpcodes)
    {
      match op
      case ORA | AND | EOR => Logical(op, value);
      case ADC => Adc(value);
      case SBC => Sbc(value);
      case CMP => Compare(Accumulator(regs), value, Memory8(regs));
      case LDA => LoadA(value);
      case BIT => BitMemory(value);
    }

    /** `loadX`, `loadY`, `compareX` and `compareY`. */
    method OperateIndex(op: IndexOp, value: word)
      modifies this
      ensures regs == Wdc65816.OperateIndex(old(regs), op, value) && unknownOpcodes == old(unknownOpcodes)
    {
      match op
      case LDX => LoadIndex(false, value);
      case LDY => LoadIndex(true, value);
      case CPX => Compare(IndexRegister(regs, false), value, Index8(regs));
      case CPY => Compare(IndexRegister(regs, true), value, Index8(regs));
    }

    /** `tsb` and `trb`: Z from `A & value`, then the bits of A set in or cleared from the value. */
    method TestBits(setting: bool, value: word, narrow: bool) returns (result: word)
      requires value < Limit(narrow)
      modifies this
      ensures (regs.p, result) == Tested(old(regs), setting, value, narrow)
      ensures regs == old(regs).(p := regs.p) && unknownOpcodes == old(unknownOpcodes)
    {
      Pow2Values();
      var w := Width(narrow);
      var a := Mask(regs.a, narrow);
      regs := regs.(p := regs.p.(z := And(a, value, w) == 0));
      result := if setting then Or(value, a, w) else And(value, Not(a, w), w);
    }

    /** `asl` and `rol`: C from the bit shifted out of the top. */
    method ShiftLeft(rotate: bool, value: word, narrow: bool) returns (result: word)
      requires value < Limit(narrow)
      modifies this
      ensures (regs.p, result) == Modified(old(regs), if rotate then ROL else ASL, value, narrow)
      ensures regs == old(regs).(p := regs.p) && unknownOpcodes == old(unknownOpcodes)
    {
      var carry := if rotate && regs.p.c then 1 else 0;
      result := Mask(value * 2 + carry, narrow);
      regs := regs.(p := regs.p.(c := value >= Top(narrow)));
      SetZN(result, narrow);
    }

    /** `lsr` and `ror`: C from bit 0. */
    method ShiftRight(rotate: bool, value: word, narrow: bool) returns (result: word)
      requires value < Limit(narrow)
      modifies this
      ensures (regs.p, result) == Modified(old(regs), if rotate then ROR else LSR, value, narrow)
      ensures regs == old(regs).(p := regs.p) && unknownOpcodes == old(unknownOpcodes)
    {
      result := value / 2 + (if rotate && regs.p.c then Top(narrow) else 0);
      regs := regs.(p := regs.p.(c := value % 2 == 1));
      SetZN(result, narrow);
    }

    /** `inc` and `dec`, wrapping at the operation's width. */
    method IncDec(up: bool, value: word, narrow: bool) returns (result: word)
      requires value < Limit(narrow)
      modifies this
      ensures (regs.p, result) == Modified(old(regs), if up then INC else DEC, value, narrow)
      ensures regs == old(regs).(p := regs.p) && unknownOpcodes == old(unknownOpcodes)
    {
      result := Mask(if up then value + 1 else value - 1, narrow);
      SetZN(result, narrow);
    }

    /**
     * The value half of `tsb`, `trb`, the shifts and rotates and the
     * increments and decrements: the flags they set and the value they write.
     */
    method Modify(op: ModifyOp, value: word, narrow: bool) returns (result: word)
      requires value < Limit(narrow)
      modifies this
      ensures (regs.p, result) == Modified(old(regs), op, value, narrow)
      ensures regs == old(regs).(p := regs.p) && unknownOpcodes == old(unknownOpcodes)
    {
      match op
      case TSB => result := TestBits(true, value, narrow);
      case TRB => result := TestBits(false, value, narrow);
      case ASL => result := ShiftLeft(false, value, narrow);
      case ROL => result := ShiftLeft(true, value, narrow);
      case LSR => result := ShiftRight(false, value, narrow);
      case ROR => result := ShiftRight(true, value, narrow);
      case INC => result := IncDec(true, value, narrow);
      case DEC => result := IncDec(false, value, narrow);
    }

    // ---------------------------------------------------------------- instructions that read or write an operand

    /** The accumulator-width cases: read the operand, operate, count cycles by the width afterwards. */
    method Alu(op: AluOp, source: Source, cycles8: nat, cycles16: nat) returns (cycles: nat)
      requires Valid()
      modifies this
      ensures Executed(State(), cycles) == Wdc65816.Alu(old(State()), op, source, cycles8, cycles16)
    {
      var value := ReadOperand(source, Memory8(regs));
      Operate(op, value);
      cycles := if Memory8(regs) then cycles8 else cycles16;
    }

    /** LDX, LDY, CPX and CPY. */
    method IndexAlu(op: IndexOp, source: Source, cycles8: nat, cycles16: nat) returns (cycles: nat)
      requires Valid()
      modifies this
      ensures Executed(State(), cycles) == Wdc65816.IndexAlu(old(State()), op, source, cycles8, cycles16)
    {
      var value := ReadOperand(source, Index8(regs));
      OperateIndex(op, value);
      cycles := if Index8(regs) then cycles8 else cycles16;
    }

    /** STA and STZ. */
    method Store(mode: Mode, zero: bool, cycles8: nat, cycles16: nat) returns (cycles: nat)
      requires Valid()
      modifies this, bus.cells
      ensures Executed(State(), cycles) == Wdc65816.Store(old(State()), mode, zero, cycles8, cycles16)
    {
      var address := Resolve(mode);
      var narrow := Memory8(regs);
      WriteByWidth(address, if zero then 0 else Accumulator(regs), narrow, Linear(mode));
      cycles := if narrow then cycles8 else cycles16;
    }

    /** STX and STY. */
    method StoreIndex(mode: Mode, useY: bool, cycles8: nat, cycles16: nat) returns (cycles: nat)
      requires Valid()
      modifies this, bus.cells
      ensures Executed(State(), cycles) == Wdc65816.StoreIndex(old(State()), mode, useY, cycles8, cycles16)
    {
      var address := Resolve(mode);
      var narrow := Index8(regs);
      WriteByWidth(address, if useY then regs.y else regs.x, narrow, false);
      cycles := if narrow then cycles8 else cycles16;
    }

    /** `tsb`, `trb`, `aslMemory` and the other read-modify-write helpers. */
    method ModifyMemory(op: ModifyOp, mode: Mode, cycles8: nat, cycles16: nat) returns (cycles: nat)
      requires Valid()
      modifies this, bus.cells
      ensures Executed(State(), cycles) == Wdc65816.ModifyMemory(old(State()), op, mode, cycles8, cycles16)
    {
      var narrow := Memory8(regs);
      var address := Resolve(mode);
      ReadModifyWrite(op, address, narrow);
      cycles := if narrow then cycles8 else cycles16;
    }

    /** The body the read-modify-write helpers share: read at the width, modify, write back bank-wrapped. */
    method ReadModifyWrite(op: ModifyOp, address: long, narrow: bool)
      requires Valid()
      modifies this, bus.cells
      ensures var (p, result) := Modified(old(regs), op, ReadSized(old(bus.cells[..]), address, narrow, false), narrow);
              regs == old(regs).(p := p) && bus.cells[..] == WriteSized(old(bus.cells[..]), address, result, narrow, false)
      ensures unknownOpcodes == old(unknownOpcodes)
    {
      var value := ReadByWidth(address, narrow, false);
      var result := Modify(op, value, narrow);
      WriteByWidth(address, result, narrow, false);
    }

    /** `aslAccumulator`, `incAccumulator` and the rest. */
    method ModifyAccumulator(op: ModifyOp) returns (cycles: nat)
      requires Valid()
      modifies this
      ensures Executed(State(), cycles) == Wdc65816.ModifyAccumulator(old(State()), op)
    {
      var narrow := Memory8(regs);
      var result := Modify(op, Mask(regs.a, narrow), narrow);
      regs := regs.(a := if narrow then WithLow(regs.a, result) else result);
      cycles := if narrow then 2 else 3;
    }

    // ---------------------------------------------------------------- register instructions

    /** `transferAToX` and its twins. */
    method Transfer(src: Reg, dst: Reg) returns (cycles: nat)
      requires Valid()
      modifies this
      ensures Executed(State(), cycles) == Wdc65816.Transfer(old(State()), src, dst)
    {
      LoadRegister(dst, Value(regs, src));
      cycles := 2;
    }

    /** `incrementX`, `decrementX`, `incrementY` and `decrementY`. */
    method IncrementIndex(useY: bool, up: bool) returns (cycles: nat)
      requires Valid()
      modifies this
      ensures Executed(State(), cycles) == Wdc65816.IncrementIndex(old(State()), useY, up)
    {
      var narrow := Index8(regs);
      var value := Mask((if useY then regs.y else regs.x) + (if up then 1 else -1), narrow);
      if useY {
        regs := regs.(y := value);
      } else {
        regs := regs.(x := value);
      }
      SetZN(value, narrow);
      cycles := 2;
    }

    method Tcs() returns (cycles: nat)
      requires Valid()
      modifies this
      ensures Executed(State(), cycles) == Wdc65816.Tcs(old(State()))
    {
      regs := regs.(sp := if regs.e then regs.a % 0x100 + 0x100 else regs.a);
      cycles := 2;
    }

    method Tcd() returns (cycles: nat)
      requires Valid()
      modifies this
      ensures Executed(State(), cycles) == Wdc65816.Tcd(old(State()))
    {
      regs := regs.(d := regs.a);
      SetZN(regs.d, false);
      cycles := 2;
    }

    /** `xba`. */
    method Xba() returns (cycles: nat)
      requires Valid()
      modifies this
      ensures Executed(State(), cycles) == Wdc65816.Xba(old(State()))
    {
      var low := regs.a % 0x100;
      var high := regs.a / 0x100;
      regs := regs.(a := low * 0x100 + high);
      DivModOf(regs.a, 0x100, low, high);
      SetZN(regs.a % 0x100, true);
      cycles := 3;
    }

    /** `xce`. */
    method Xce() returns (cycles: nat)
      requires Valid()
      modifies this
      ensures Executed(State(), cycles) == Wdc65816.Xce(old(State()))
    {
      var carry := regs.p.c;
      regs := regs.(p := regs.p.(c := regs.e));
      regs := regs.(e := carry);
      NormalizeFlagsAndRegisters();
      cycles := 2;
    }

    /** `rep(fetch8())`. */
    method Rep() returns (cycles: nat)
      requires Valid()
      modifies this
      ensures Executed(State(), cycles) == Wdc65816.Rep(old(State()))
    {
      var mask := Fetch8();
      regs := regs.(p := Cleared(regs.p, mask));
      NormalizeFlagsAndRegisters();
      cycles := 3;
    }

    /** `sep(fetch8())`. */
    method Sep() returns (cycles: nat)
      requires Valid()
      modifies this
      ensures Executed(State(), cycles) == Wdc65816.Sep(old(State()))
    {
      var mask := Fetch8();
      regs := regs.(p := Raised(regs.p, mask));
      NormalizeFlagsAndRegisters();
      cycles := 3;
    }

    // ---------------------------------------------------------------- pushes and pulls

    /** PHP: in emulation mode bits 4 and 5 are pushed set. */
    method Php() returns (cycles: nat)
      requires Valid()
      modifies this, bus.cells
      ensures Executed(State(), cycles) == Wdc65816.Php(old(State()))
    {
      Push8(Pushed(regs));
      cycles := 3;
    }

    method Phd() returns (cycles: nat)
      requires Valid()
      modifies this, bus.cells
      ensures Executed(State(), cycles) == Wdc65816.Phd(old(State()))
    {
      Push16(regs.d);
      cycles := 4;
    }

    method Phk() returns (cycles: nat)
      requires Valid()
      modifies this, bus.cells
      ensures Executed(State(), cycles) == Wdc65816.Phk(old(State()))
    {
      Push8(regs.pbr);
      cycles := 3;
    }

    method Phb() returns (cycles: nat)
      requires Valid()
      modifies this, bus.cells
      ensures Executed(State(), cycles) == Wdc65816.Phb(old(State()))
    {
      Push8(regs.dbr);
      cycles := 3;
    }

    /** `pushAByWidth`, `pushXByWidth`, `pushYByWidth`. */
    method PushRegister(reg: Reg) returns (cycles: nat)
      requires Valid()
      modifies this, bus.cells
      ensures Executed(State(), cycles) == Wdc65816.PushRegister(old(State()), reg)
    {
      var narrow := Narrow(regs, reg);
      PushSized(Value(regs, reg), narrow);
      cycles := if narrow then 3 else 4;
    }

    /** `pullAByWidth`, `pullXByWidth`, `pullYByWidth`. */
    method PullRegister(reg: Reg) returns (cycles: nat)
      requires Valid()
      modifies this
      ensures Executed(State(), cycles) == Wdc65816.PullRegister(old(State()), reg)
    {
      var narrow := Narrow(regs, reg);
      var value := PopSized(narrow);
      LoadRegister(reg, value);
      cycles := if narrow then 4 else 5;
    }

    /** PLP. */
    method Plp() returns (cycles: nat)
      requires Valid()
      modifies this
      ensures Executed(State(), cycles) == Wdc65816.Plp(old(State()))
    {
      var status := Pop8();
      regs := regs.(p := Unpack(status));
      NormalizeFlagsAndRegisters();
      cycles := 4;
    }

    /** PLB. */
    method Plb() returns (cycles: nat)
      requires Valid()
      modifies this
      ensures Executed(State(), cycles) == Wdc65816.Plb(old(State()))
    {
      var bank := Pop8();
      regs := regs.(dbr := bank);
      SetZN(bank, true);
      cycles := 4;
    }

    /** PER. */
    method Per() returns (cycles: nat)
      requires Valid()
      modifies this, bus.cells
      ensures Executed(State(), cycles) == Wdc65816.Per(old(State()))
    {
      var displacement := Fetch16();
      Push16((regs.pc + Signed16(displacement)) % 0x1_0000);
      cycles := 6;
    }

    // ---------------------------------------------------------------- branches and jumps

    /** `branch(condition)`. */
    method Branch(condition: Condition) returns (cycles: nat)
      requires Valid()
      modifies this
      ensures Executed(State(), cycles) == Wdc65816.Branch(old(State()), condition)
    {
      var taken := Holds(regs.p, condition);
      var displacement := Fetch8();
      if taken {
        regs := regs.(pc := (regs.pc + Signed8(displacement)) % 0x1_0000);
        cycles := 3;
      } else {
        cycles := 2;
      }
    }

    method Brl() returns (cycles: nat)
      requires Valid()
      modifies this
      ensures Executed(State(), cycles) == Wdc65816.Brl(old(State()))
    {
      var displacement := Fetch16();
      regs := regs.(pc := (regs.pc + Signed16(displacement)) % 0x1_0000);
      cycles := 4;
    }

    method Jmp() returns (cycles: nat)
      requires Valid()
      modifies this
      ensures Executed(State(), cycles) == Wdc65816.Jmp(old(State()))
    {
      var target := Fetch16();
      regs := regs.(pc := target);
      cycles := 3;
    }

    method Jml() returns (cycles: nat)
      requires Valid()
      modifies this
      ensures Executed(State(), cycles) == Wdc65816.Jml(old(State()))
    {
      var target := Fetch24();
      regs := regs.(pbr := target / 0x1_0000, pc := target % 0x1_0000);
      cycles := 4;
    }

    /** JML [abs]. */
    method JmlIndirect() returns (cycles: nat)
      requires Valid()
      modifies this
      ensures Executed(State(), cycles) == Wdc65816.JmlIndirect(old(State()))
    {
      var pointer := Fetch16();
      var target := Read16Bank0(pointer);
      var bank := Read8((pointer as int + 2) % 0x1_0000);
      regs := regs.(pc := target, pbr := bank);
      cycles := 6;
    }

    // ---------------------------------------------------------------- calls, returns and interrupts

    method Jsr() returns (cycles: nat)
      requires Valid()
      modifies this, bus.cells
      ensures Executed(State(), cycles) == Wdc65816.Jsr(old(State()))
    {
      var target := Fetch16();
      Push16((regs.pc - 1) % 0x1_0000);
      regs := regs.(pc := target);
      cycles := 6;
    }

    /** A program bank and an address in it, as JSL, `interrupt` and BRK push them in native mode. */
    method PushBankAndAddress(bank: byte, address: word)
      requires Valid()
      modifies this, bus.cells
      ensures State() == Wdc65816.Push16(Wdc65816.Push8(old(State()), bank), address)
    {
      Push8(bank);
      Push16(address);
    }

    method Jsl() returns (cycles: nat)
      requires Valid()
      modifies this, bus.cells
      ensures Executed(State(), cycles) == Wdc65816.Jsl(old(State()))
    {
      ghost var m0 := State();
      var target := Fetch24();
      ghost var m1 := State();
      assert m1 == m0.(regs := Skip(m0.regs, 3));
      PushBankAndAddress(regs.pbr, (regs.pc - 1) % 0x1_0000);
      assert State() == Wdc65816.Push16(Wdc65816.Push8(m1, m1.regs.pbr), (m1.regs.pc - 1) % 0x1_0000);
      regs := regs.(pbr := target / 0x1_0000, pc := target % 0x1_0000);
      cycles := 8;
    }

    method Rts() returns (cycles: nat)
      requires Valid()
      modifies this
      ensures Executed(State(), cycles) == Wdc65816.Rts(old(State()))
    {
      ghost var m0 := State();
      var address := Pop16();
      assert (State(), address) == Wdc65816.Pop16(m0);
      regs := regs.(pc := (address as int + 1) % 0x1_0000);
      cycles := 6;
    }

    method Rtl() returns (cycles: nat)
      requires Valid()
      modifies this
      ensures Executed(State(), cycles) == Wdc65816.Rtl(old(State()))
    {
      ghost var m0 := State();
      var address := Pop16();
      assert (State(), address) == Wdc65816.Pop16(m0);
      ghost var m1 := State();
      var bank := Pop8();
      assert (State(), bank) == Wdc65816.Pop8(m1);
      regs := regs.(pc := (address as int + 1) % 0x1_0000, pbr := bank);
      cycles := 6;
    }

    /** The common tail of `interrupt` and `brk`. */
    method Vector(vector: word)
      requires Valid()
      modifies this
      ensures State() == Vectored(old(State()), vector)
    {
      regs := regs.(p := regs.p.(i := true, d := false));
      regs := regs.(pbr := 0);
      var target := Read16Bank0(vector);
      regs := regs.(pc := target);
    }

    /** `interrupt(isNMI)`. */
    method Interrupt(nmi: bool) returns (cycles: nat)
      requires Valid()
      modifies this, bus.cells
      ensures Executed(State(), cycles) == Wdc65816.Interrupt(old(State()), nmi)
    {
      if regs.e {
        Push16(regs.pc);
        Push8(Pack(regs.p.(x := false)));
        Vector(if nmi then 0xfffa else 0xfffe);
        cycles := 7;
      } else {
        Push8(regs.pbr);
        Push16(regs.pc);
        Push8(Pack(regs.p));
        Vector(if nmi then 0xffea else 0xffee);
        cycles := 8;
      }
    }

    /**
     * `brk`, with native mode pushing PBR before PC as `interrupt` does, so
     * that native RTI returns to the right bank and leaves the stack balanced.
     */
    method Brk() returns (cycles: nat)
      requires Valid()
      modifies this, bus.cells
      ensures Executed(State(), cycles) == Wdc65816.Brk(old(State()))
    {
      var emulation := regs.e;
      var status := Pushed(regs);
      var returnAddress := (regs.pc + 1) % 0x1_0000;
      if !emulation {
        Push8(regs.pbr);
      }
      Push16(returnAddress);
      Push8(status);
      Vector(if emulation then 0xfffe else 0xffe6);
      cycles := if emulation then 7 else 8;
    }

    /** `rti`. */
    method Rti() returns (cycles: nat)
      requires Valid()
      modifies this
      ensures Executed(State(), cycles) == Wdc65816.Rti(old(State()))
    {
      ghost var m0 := State();
      var status := Pop8();
      assert (State(), status) == Wdc65816.Pop8(m0);
      ghost var m1 := State();
      var pc := Pop16();
      assert (State(), pc) == Wdc65816.Pop16(m1);
      // The pops leave P alone, so P is assigned once they are done.
      if regs.e {
        regs := regs.(p := Unpack(status).(m := true, x := true), pc := pc);
        NormalizeFlagsAndRegisters();
        cycles := 6;
      } else {
        ghost var m2 := State();
        var bank := Pop8();
        assert (State(), bank) == Wdc65816.Pop8(m2);
        regs := regs.(p := Unpack(status), pc := pc, pbr := bank);
        NormalizeFlagsAndRegisters();
        cycles := 7;
      }
    }

    /** The byte one MVN or MVP step copies, from `srcBank:X` to `destBank:Y`. */
    method CopyByte(destBank: byte, srcBank: byte)
      requires Valid()
      modifies bus.cells
      ensures bus.cells[..] == MoveByte(old(bus.cells[..]), destBank, srcBank, regs.x, regs.y)
    {
      var value := Read8(srcBank * 0x1_0000 + regs.x);
      Write8(destBank * 0x1_0000 + regs.y, value);
    }

    /** `blockMove(increment)`: MVN and MVP move one byte per execution. */
    method BlockMove(increment: bool) returns (cycles: nat)
      requires Valid()
      modifies this, bus.cells
      ensures Executed(State(), cycles) == Wdc65816.BlockMove(old(State()), increment)
    {
      ghost var m0 := State();
      var destBank := Fetch8();
      var srcBank := Fetch8();
      SkipTwice(m0.regs, 1);
      assert destBank == ProgramByte(m0.regs, m0.mem, 0) && srcBank == ProgramByte(m0.regs, m0.mem, 1);
      assert regs == Skip(m0.regs, 2);
      CopyByte(destBank, srcBank);
      var delta := if increment then 1 else -1;
      var count := (regs.a - 1) % 0x1_0000;
      // Until the count wraps to 0xFFFF, PC goes back onto the opcode.
      var pc := if count != 0xffff then (regs.pc - 3) % 0x1_0000 else regs.pc;
      regs := regs.(x := (regs.x + delta) % 0x1_0000, y := (regs.y + delta) % 0x1_0000, a := count, dbr := destBank, pc := pc);
      cycles := 7;
    }

    // ---------------------------------------------------------------- execute

    method PerformData(instr: Instr) returns (cycles: nat)
      requires Valid() && DataOp(instr)
      modifies this, bus.cells
      ensures Executed(State(), cycles) == Wdc65816.PerformData(old(State()), instr)
    {
      match instr
      case Accumulate(op, source, cycles8, cycles16) =>
        cycles := Alu(op, source, cycles8, cycles16);
      case IndexOperate(op, source, cycles8, cycles16) =>
        cycles := IndexAlu(op, source, cycles8, cycles16);
      case StoreAccumulator(mode, zero, cycles8, cycles16) =>
        cycles := Store(mode, zero, cycles8, cycles16);
      case StoreIndexReg(mode, useY, cycles8, cycles16) =>
        cycles := StoreIndex(mode, useY, cycles8, cycles16);
      case ModifyAt(op, mode, cycles8, cycles16) =>
        cycles := ModifyMemory(op, mode, cycles8, cycles16);
      case ModifyA(op) =>
        cycles := ModifyAccumulator(op);
    }

    method PerformRegister(instr: Instr) returns (cycles: nat)
      requires Valid() && RegisterOp(instr)
      modifies this
      ensures Executed(State(), cycles) == Wdc65816.PerformRegister(old(State()), instr)
    {
      match instr
      case Copy(src, dst) =>
        cycles := Transfer(src, dst);
      case StepIndex(useY, up) =>
        cycles := IncrementIndex(useY, up);
      case TransferToStack =>
        cycles := Tcs();
      case TransferToDirect =>
        cycles := Tcd();
      case ExchangeBytes =>
        cycles := Xba();
      case NoOperation =>
        cycles := 2;
      case AssignFlag(flag, value) =>
        SetFlag(flag, value);
        cycles := 2;
    }

    method PerformMode(instr: Instr) returns (cycles: nat)
      requires Valid() && ModeOp(instr)
      modifies this
      ensures Executed(State(), cycles) == Wdc65816.PerformMode(old(State()), instr)
    {
      match instr
      case ExchangeEmulation =>
        cycles := Xce();
      case ResetFlags =>
        cycles := Rep();
      case SetFlags =>
        cycles := Sep();
      case PullStatus =>
        cycles := Plp();
    }

    method PerformStack(instr: Instr) returns (cycles: nat)
      requires Valid() && StackOp(instr)
      modifies this, bus.cells
      ensures Executed(State(), cycles) == Wdc65816.PerformStack(old(State()), instr)
    {
      match instr
      case PushStatus =>
        cycles := Php();
      case PushDirect =>
        cycles := Phd();
      case PushProgramBank =>
        cycles := Phk();
      case PushDataBank =>
        cycles := Phb();
      case PushReg(reg) =>
        cycles := PushRegister(reg);
      case PullDataBank =>
        cycles := Plb();
      case PullReg(reg) =>
        cycles := PullRegister(reg);
      case PushRelative =>
        cycles := Per();
    }

    method PerformFlow(instr: Instr) returns (cycles: nat)
      requires Valid() && FlowOp(instr)
      modifies this
      ensures Executed(State(), cycles) == Wdc65816.PerformFlow(old(State()), instr)
    {
      match instr
      case BranchIf(condition) =>
        cycles := Branch(condition);
      case BranchLong =>
        cycles := Brl();
      case JumpAbsolute =>
        cycles := Jmp();
      case JumpLong =>
        cycles := Jml();
      case JumpIndirectLong =>
        cycles := JmlIndirect();
    }

    method PerformCall(instr: Instr) returns (cycles: nat)
      requires Valid() && CallOp(instr)
      modifies this, bus.cells
      ensures Executed(State(), cycles) == Wdc65816.PerformCall(old(State()), instr)
    {
      match instr
      case JumpSubroutine =>
        cycles := Jsr();
      case JumpSubroutineLong =>
        cycles := Jsl();
      case ReturnSubroutine =>
        cycles := Rts();
      case ReturnLong =>
        cycles := Rtl();
      case Break =>
        cycles := Brk();
      case ReturnFromInterrupt =>
        cycles := Rti();
    }

    /** The `switch` of `execute` for every opcode it recognises, by kind. */
    method Perform(instr: Instr) returns (cycles: nat)
      requires Valid()
      modifies this, bus.cells
      ensures Executed(State(), cycles) == Wdc65816.Perform(old(State()), instr)
    {
      if DataOp(instr) {
        cycles := PerformData(instr);
      } else if RegisterOp(instr) {
        cycles := PerformRegister(instr);
      } else if ModeOp(instr) {
        cycles := PerformMode(instr);
      } else if StackOp(instr) {
        cycles := PerformStack(instr);
      } else if FlowOp(instr) {
        cycles := PerformFlow(instr);
      } else if CallOp(instr) {
        cycles := PerformCall(instr);
      } else {
        cycles := BlockMove(instr.increment);
      }
    }

    /** `execute(opcode)`: the `switch`, whose `default` is `illegal`. */
    method Execute(opcode: byte) returns (result: Result<nat>)
      requires Valid()
      modifies this, bus.cells
      ensures Stepped(State(), result) == Wdc65816.Execute(old(State()), opcode, strictOpcodes)
    {
      match Decode(opcode)
      case None =>
        result := Illegal(opcode);
      case Some(instr) =>
        var cycles := Perform(instr);
        result := Ok(cycles);
    }

    /** `illegal(opcode)`: tally the opcode; then throw in strict mode, or take 2 cycles. */
    method Illegal(opcode: byte) returns (result: Result<nat>)
      requires Valid()
      modifies this
      ensures Stepped(State(), result) == Wdc65816.Illegal(old(State()), opcode, strictOpcodes)
    {
      var count := Count(unknownOpcodes, opcode);
      unknownOpcodes := JsMap.Set(unknownOpcodes, opcode, count + 1);
      if strictOpcodes {
        var hex := Hex(opcode, 2);
        var bank := Hex(regs.pbr, 2);
        var pc := Hex((regs.pc - 1) % 0x1_0000, 4);
        result := Err(Error("Unsupported opcode 0x" + hex + " at " + bank + ":" + pc + "."));
      } else {
        result := Ok(2);
      }
    }

    // ---------------------------------------------------------------- step

    /** The instruction half of `step()`: fetch the opcode, execute it, count its cycles. */
    method Run() returns (result: Result<nat>)
      requires Valid()
      modifies this, bus.cells
      ensures Stepped(State(), result) == Ran(old(State()), strictOpcodes)
    {
      ghost var before := State();
      var opcode := Fetch8();
      ghost var fetched := State();
      assert fetched == before.(regs := Skip(before.regs, 1));
      result := Execute(opcode);
      ghost var s := Wdc65816.Execute(fetched, opcode, strictOpcodes);
      assert Stepped(State(), result) == s;
      if result.Ok? {
        regs := regs.(totalCycles := regs.totalCycles + result.value);
      }
    }

    /** `step()`: a pending NMI, then an IRQ polled only while I is clear, then one instruction. */
    method Step() returns (result: Result<nat>)
      requires Valid()
      modifies this, bus, bus.cells
      ensures (Cpu(State(), bus.nmiPending, bus.irqPending), result)
           == Wdc65816.Step(Cpu(old(State()), old(bus.nmiPending), old(bus.irqPending)), strictOpcodes)
    {
      ghost var before := State();
      var nmi := bus.PollNmi();
      assert State() == before;
      if nmi {
        var cycles := Interrupt(true);
        regs := regs.(totalCycles := regs.totalCycles + cycles);
        return Ok(cycles);
      }
      if !regs.p.i {
        var irq := bus.PollIrq();
        assert State() == before;
        if irq {
          var cycles := Interrupt(false);
          regs := regs.(totalCycles := regs.totalCycles + cycles);
          return Ok(cycles);
        }
      }
      result := Run();
    }

    // ---------------------------------------------------------------- snapshots

    /** `saveState()`. */
    method SaveState() returns (state: CpuState)
      ensures state == Save(regs, unknownOpcodes)
    {
      state := CpuState(regs.a, regs.x, regs.y, regs.sp, regs.d, regs.dbr, regs.pbr, Pack(regs.p), regs.e, regs.pc,
                        regs.totalCycles, unknownOpcodes);
    }

    /** `loadState(state)`: each register masked to its width, then normalised. */
    method LoadState(state: CpuState)
      modifies this
      ensures regs == LoadRegisters(state) && unknownOpcodes == JsMap.FromEntries(state.unknownOpcodes)
    {
      regs := Registers(state.a % 0x1_0000, state.x % 0x1_0000, state.y % 0x1_0000, state.sp % 0x1_0000, state.d % 0x1_0000,
                        state.dbr % 0x100, state.pbr % 0x100, Unpack(state.p % 0x100), state.e, state.pc % 0x1_0000,
                        state.totalCycles % 0x1_0000_0000);
      unknownOpcodes := JsMap.FromEntries(state.unknownOpcodes);
      NormalizeFlagsAndRegisters();
    }

    /** Saving and loading back gives the same processor while the registers are normalised, the cycle count fits 32 bits and the tally came from a `Map`. */
    method SaveLoad()
      requires Normalized(regs) && regs.totalCycles < 0x1_0000_0000 && JsMap.DistinctKeys(unknownOpcodes)
      modifies this
      ensures regs == old(regs) && unknownOpcodes == old(unknownOpcodes)
    {
      var state := SaveState();
      SaveLoadRoundTrip(regs, unknownOpcodes);
      SaveLoadTally(regs, unknownOpcodes);
      LoadState(state);
    }

    // ---------------------------------------------------------------- decimal mode

    /** `adcBcd(left, right, carryIn, width)`: digit by digit from the lowest, each digit or'ed in at `index * 4`. */
    method AdcBcd(left: nat, right: nat, carryIn: nat, narrow: bool) returns (result: nat, carryOut: bool)
      ensures (result, carryOut) == Wdc65816.AdcBcd(left, right, carryIn, narrow)
    {
      var digits := Digits(narrow);
      var sum := 0;
      var carry := carryIn;
      var index := 0;
      while index < digits
        invariant index <= digits
        invariant AddFrom(left, right, digits, index, sum, carry) == AddFrom(left, right, digits, 0, 0, carryIn)
      {
        var shift := Pow16(index);
        ShiftedIs(left, index);
        ShiftedIs(right, index);
        var nibble := left / shift % 0x10 + right / shift % 0x10 + carry;
        if nibble > 9 {
          nibble := nibble + 6;
        }
        carry := if nibble > 0xf then 1 else 0;
        sum := sum + nibble % 0x10 * shift;
        index := index + 1;
      }
      AddLoop(left, right, carryIn, digits);
      result := Mask(sum, narrow);
      carryOut := carry != 0;
    }

    /** `sbcBcd(left, right, borrowIn, width)`: a digit that goes negative has 6 taken off and borrows. */
    method SbcBcd(left: nat, right: nat, borrowIn: nat, narrow: bool) returns (result: nat, carryOut: bool)
      ensures (result, carryOut) == Wdc65816.SbcBcd(left, right, borrowIn, narrow)
    {
      var digits := Digits(narrow);
      var difference := 0;
      var borrow := borrowIn;
      var index := 0;
      while index < digits
        invariant index <= digits
        invariant SubtractFrom(left, right, digits, index, difference, borrow) == SubtractFrom(left, right, digits, 0, 0, borrowIn)
      {
        var shift := Pow16(index);
        ShiftedIs(left, index);
        ShiftedIs(right, index);
        var nibble := left / shift % 0x10 - right / shift % 0x10 - borrow;
        if nibble < 0 {
          nibble := nibble - 6;
          borrow := 1;
        } else {
          borrow := 0;
        }
        difference := difference + nibble % 0x10 * shift;
        index := index + 1;
      }
      SubtractLoop(left, right, borrowIn, digits);
      result := Mask(difference, narrow);
      carryOut := borrow == 0;
    }
  }
}
