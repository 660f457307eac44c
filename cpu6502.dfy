/**
 * The 6502 interpreter of src/core/cpu6502.js as a class over the processor's
 * bus. Every method does what its JavaScript counterpart does, step by step,
 * and its contract ties the new state to the instruction semantics of module
 * Mos6502: `State()` is the machine those functions take, read off the fields
 * and the bus memory.
 */
module Cpu6502 {
  import opened Bits
  import opened Wrappers
  import opened Mos6502
  import JsMap
  import JsString
  import CpuBus

  lemma NextTwice(pc: word)
    ensures Next(Next(pc, 1), 1) == Next(pc, 2)
  {
  }

  class CPU6502 {
    const bus: CpuBus.Bus
    const strictOpcodes: bool
    var regs: Registers
    var unknownOpcodes: JsMap.Entries<int, int>

    /** The bus spans the 64 KiB address space. */
    ghost predicate Valid()
    {
      bus.cells.Length == 0x1_0000
    }

    ghost function State(): Machine
      requires Valid()
      reads this, bus.cells
    {
      Machine(regs, bus.cells[..], unknownOpcodes)
    }

    /** `new CPU6502(bus, { strictOpcodes })`: an empty tally, then `reset()`. */
    constructor (bus: CpuBus.Bus, strictOpcodes: bool)
      requires bus.cells.Length == 0x1_0000
      ensures Valid() && this.bus == bus && this.strictOpcodes == strictOpcodes
      ensures regs == Mos6502.Reset(bus.cells[..]) && unknownOpcodes == []
    {
      this.bus := bus;
      this.strictOpcodes := strictOpcodes;
      unknownOpcodes := [];
      regs := Registers(0, 0, 0, 0xfd, Unpack(0x24), 0, 7);
      new;
      Reset();
    }

    method Reset()
      requires Valid()
      modifies this
      ensures regs == Mos6502.Reset(bus.cells[..]) && unknownOpcodes == old(unknownOpcodes)
    {
      var pc := Read16(0xfffc);
      regs := Registers(0, 0, 0, 0xfd, Unpack(0x24), pc, 7);
    }

    /** `step()`: NMI, then an unmasked IRQ, then one instruction, whose cycles are counted. */
    method Step() returns (result: Result<nat>)
      requires Valid()
      modifies this, bus, bus.cells
      ensures (Cpu(State(), bus.nmiPending, bus.irqPending), result)
           == Mos6502.Step(Cpu(old(State()), old(bus.nmiPending), old(bus.irqPending)), strictOpcodes)
    {
      ghost var before := State();
      var nmi := bus.PollNmi();
      if nmi {
        var cycles := Interrupt(0xfffa, false);
        return Ok(cycles);
      }
      var irq := bus.PollIrq();
      assert State() == before;
      if irq && !regs.p.i {
        var cycles := Interrupt(0xfffe, false);
        return Ok(cycles);
      }
      result := Run();
    }

    /** The instruction half of `step()`: fetch, execute, count the cycles. */
    method Run() returns (result: Result<nat>)
      requires Valid()
      modifies this, bus.cells
      ensures Stepped(State(), result) == Ran(old(State()), strictOpcodes)
    {
      ghost var before := State();
      var opcode := Read(regs.pc);
      regs := regs.(pc := (regs.pc + 1) % 0x1_0000);
      ghost var fetched := State();
      assert fetched == before.(regs := before.regs.(pc := Next(before.regs.pc, 1)));
      result := Execute(opcode);
      ghost var s := Mos6502.Execute(fetched, opcode, strictOpcodes);
      assert Stepped(State(), result) == s;
      if result.Ok? {
        regs := regs.(totalCycles := regs.totalCycles + result.value);
      }
    }

    /** `execute(opcode)`: group 1, group 2 unless it declines, then the switch. */
    method Execute(opcode: byte) returns (result: Result<nat>)
      requires Valid()
      modifies this, bus.cells
      ensures Stepped(State(), result) == Mos6502.Execute(old(State()), opcode, strictOpcodes)
    {
      if opcode % 4 == 1 {
        var cycles := ExecuteGroup1(opcode);
        return Ok(cycles);
      }
      if opcode % 4 == 2 {
        var cycles := ExecuteGroup2(opcode);
        if cycles.Some? {
          return Ok(cycles.value);
        }
      }
      result := ExecuteSwitch(opcode);
    }

    method ExecuteSwitch(opcode: byte) returns (result: Result<nat>)
      requires Valid()
      modifies this, bus.cells
      ensures Stepped(State(), result) == Switch(old(State()), opcode, strictOpcodes)
    {
      var cycles: nat;
      if opcode in CONTROL_OPCODES {
        cycles := ExecuteControl(opcode);
      } else if opcode in BRANCH_OPCODES {
        cycles := Branch(BranchTaken(regs.p, opcode));
      } else if opcode in FLAG_OPCODES {
        cycles := ExecuteFlag(opcode);
      } else if opcode in INDEX_OPCODES {
        cycles := ExecuteIndex(opcode);
      } else if opcode in IMPLIED_OPCODES {
        cycles := ExecuteImplied(opcode);
      } else if opcode in NOP_OPCODES {
        cycles := ExecuteNop(opcode);
      } else {
        result := Illegal(opcode, 2);
        return;
      }
      result := Ok(cycles);
    }

    /** `executeGroup1`: resolve the operand, then ORA, AND, EOR, ADC, STA, LDA, CMP or SBC. */
    method ExecuteGroup1(opcode: byte) returns (cycles: nat)
      requires Valid() && opcode % 4 == 1
      modifies this, bus.cells
      ensures Executed(State(), cycles) == Group1(old(State()), opcode)
    {
      var operation := opcode / 0x20;
      var mode := opcode / 4 % 8;
      var isStore := operation == 4;
      var resolved: Operand;
      if mode == 0 {
        var address := AddrIndirectX();
        resolved := Operand(address, false);
      } else if mode == 1 {
        var address := AddrZeroPage();
        resolved := Operand(address, false);
      } else if mode == 2 {
        var address := AddrImmediateAddress();
        resolved := Operand(address, false);
      } else if mode == 3 {
        var address := AddrAbsolute();
        resolved := Operand(address, false);
      } else if mode == 4 {
        resolved := AddrIndirectY();
      } else if mode == 5 {
        var address := AddrZeroPageX();
        resolved := Operand(address, false);
      } else if mode == 6 {
        resolved := AddrAbsoluteY();
      } else {
        resolved := AddrAbsoluteX();
      }
      if isStore && mode == 2 {
        return 2;
      }
      cycles := if isStore then STORE_CYCLES[mode] else READ_CYCLES[mode];
      Operate(operation, resolved.address);
      if !isStore && resolved.pageCross && (mode == 4 || mode == 6 || mode == 7) {
        cycles := cycles + 1;
      }
    }

    /** The operation chain of `executeGroup1` on the resolved address. */
    method Operate(operation: nat, address: word)
      requires Valid() && operation < 8
      modifies this, bus.cells
      ensures State() == Group1Operation(old(State()), operation, address)
    {
      Pow2Values();
      if operation == 0 {
        var value := Read(address);
        regs := regs.(a := Or(regs.a, value, 8));
        SetZN(regs.a);
      } else if operation == 1 {
        var value := Read(address);
        regs := regs.(a := And(regs.a, value, 8));
        SetZN(regs.a);
      } else if operation == 2 {
        var value := Read(address);
        regs := regs.(a := Xor(regs.a, value, 8));
        SetZN(regs.a);
      } else if operation == 3 {
        var value := Read(address);
        Adc(value);
      } else if operation == 4 {
        Write(address, regs.a);
      } else if operation == 5 {
        var value := Read(address);
        regs := regs.(a := value);
        SetZN(regs.a);
      } else if operation == 6 {
        var value := Read(address);
        Compare(regs.a, value);
      } else {
        var value := Read(address);
        Sbc(value);
      }
    }

    /** `executeGroup2`: shifts, STX, LDX, DEC, INC; `None` where the source returns `null`. */
    method ExecuteGroup2(opcode: byte) returns (cycles: Option<nat>)
      requires Valid() && opcode % 4 == 2
      modifies this, bus.cells
      ensures var g := Group2(old(State()), opcode);
        && (g.None? ==> cycles.None? && State() == old(State()))
        && (g.Some? ==> cycles == Some(g.value.cycles) && State() == g.value.m)
    {
      var operation := opcode / 0x20;
      var mode := opcode / 4 % 8;
      if operation <= 3 {
        cycles := ExecuteShift(operation, mode);
      } else if operation == 4 {
        cycles := StoreX(mode);
      } else if operation == 5 {
        cycles := LoadX(mode);
      } else {
        cycles := IncDec(operation == 7, mode);
      }
    }

    /** STX zp, zp,Y and abs. */
    method StoreX(mode: nat) returns (cycles: Option<nat>)
      requires Valid()
      modifies this, bus.cells
      ensures var g := Mos6502.StoreX(old(State()), mode);
        && (g.None? ==> cycles.None? && State() == old(State()))
        && (g.Some? ==> cycles == Some(g.value.cycles) && State() == g.value.m)
    {
      if mode == 1 {
        var address := AddrZeroPage();
        Write(address, regs.x);
        return Some(3);
      }
      if mode == 5 {
        var address := AddrZeroPageY();
        Write(address, regs.x);
        return Some(4);
      }
      if mode == 3 {
        var address := AddrAbsolute();
        Write(address, regs.x);
        return Some(4);
      }
      return None;
    }

    /** LDX #imm, zp, zp,Y, abs and abs,Y (one more cycle on a page cross). */
    method LoadX(mode: nat) returns (cycles: Option<nat>)
      requires Valid()
      modifies this
      ensures var g := Mos6502.LoadX(old(State()), mode);
        && (g.None? ==> cycles.None? && State() == old(State()))
        && (g.Some? ==> cycles == Some(g.value.cycles) && State() == g.value.m)
    {
      if mode == 0 {
        var value := ReadImmediate();
        regs := regs.(x := value);
        SetZN(regs.x);
        return Some(2);
      }
      if mode == 1 {
        var address := AddrZeroPage();
        var value := Read(address);
        regs := regs.(x := value);
        SetZN(regs.x);
        return Some(3);
      }
      if mode == 5 {
        var address := AddrZeroPageY();
        var value := Read(address);
        regs := regs.(x := value);
        SetZN(regs.x);
        return Some(4);
      }
      if mode == 3 {
        var address := AddrAbsolute();
        var value := Read(address);
        regs := regs.(x := value);
        SetZN(regs.x);
        return Some(4);
      }
      if mode == 7 {
        var resolved := AddrAbsoluteY();
        var value := Read(resolved.address);
        regs := regs.(x := value);
        SetZN(regs.x);
        return Some(4 + if resolved.pageCross then 1 else 0);
      }
      return None;
    }

    /** DEC (`increase` false) and INC on zp, zp,X, abs and abs,X. */
    method IncDec(increase: bool, mode: nat) returns (cycles: Option<nat>)
      requires Valid()
      modifies this, bus.cells
      ensures var g := Mos6502.IncDec(old(State()), increase, mode);
        && (g.None? ==> cycles.None? && State() == old(State()))
        && (g.Some? ==> cycles == Some(g.value.cycles) && State() == g.value.m)
    {
      var address: word;
      var count: nat;
      if mode == 1 {
        address := AddrZeroPage();
        count := 5;
      } else if mode == 5 {
        address := AddrZeroPageX();
        count := 6;
      } else if mode == 3 {
        address := AddrAbsolute();
        count := 6;
      } else if mode == 7 {
        var resolved := AddrAbsoluteX();
        address := resolved.address;
        count := 7;
      } else {
        return None;
      }
      var value := Read(address);
      var next := if increase then (value as int + 1) % 0x100 else (value as int - 1) % 0x100;
      Write(address, next);
      SetZN(next);
      cycles := Some(count);
    }

    /** `executeShift`: ASL, ROL, LSR, ROR on A or on memory. */
    method ExecuteShift(operation: nat, mode: nat) returns (cycles: Option<nat>)
      requires Valid() && operation <= 3
      modifies this, bus.cells
      ensures var g := Shift(old(State()), operation, mode);
        && (g.None? ==> cycles.None? && State() == old(State()))
        && (g.Some? ==> cycles == Some(g.value.cycles) && State() == g.value.m)
    {
      var isAccumulator := mode == 2;
      var address: word := 0;
      var count: nat;
      if isAccumulator {
        count := 2;
      } else if mode == 1 {
        address := AddrZeroPage();
        count := 5;
      } else if mode == 5 {
        address := AddrZeroPageX();
        count := 6;
      } else if mode == 3 {
        address := AddrAbsolute();
        count := 6;
      } else if mode == 7 {
        var resolved := AddrAbsoluteX();
        address := resolved.address;
        count := 7;
      } else {
        return None;
      }
      var source: byte;
      if isAccumulator {
        source := regs.a;
      } else {
        source := Read(address);
      }
      var (carry, result) := ShiftResult(operation, source, regs.p.c);
      regs := regs.(p := regs.p.(c := carry));
      if isAccumulator {
        regs := regs.(a := result);
      } else {
        Write(address, result);
      }
      SetZN(result);
      cycles := Some(count);
    }

    /** BRK, JSR, RTI, RTS, PHP, PLP, PHA, PLA, JMP abs and JMP (ind). */
    method ExecuteControl(opcode: byte) returns (cycles: nat)
      requires Valid() && opcode in CONTROL_OPCODES
      modifies this, bus.cells
      ensures Executed(State(), cycles) == Control(old(State()), opcode)
    {
      if opcode == 0x00 {
        cycles := Brk();
      } else if opcode == 0x20 {
        var target := AddrAbsolute();
        Push16((regs.pc - 1) % 0x1_0000);
        regs := regs.(pc := target);
        cycles := 6;
      } else if opcode == 0x40 {
        var value := Pop();
        regs := regs.(p := Unpack(value).(b := false, u := true));
        var pc := Pop16();
        regs := regs.(pc := pc);
        cycles := 6;
      } else if opcode == 0x60 {
        var pc := Pop16();
        regs := regs.(pc := (pc as int + 1) % 0x1_0000);
        cycles := 6;
      } else if opcode == 0x08 {
        Push(Pack(regs.p.(b := true, u := true)));
        cycles := 3;
      } else if opcode == 0x28 {
        var value := Pop();
        regs := regs.(p := Unpack(value).(b := false, u := true));
        cycles := 4;
      } else if opcode == 0x48 {
        Push(regs.a);
        cycles := 3;
      } else if opcode == 0x68 {
        var value := Pop();
        regs := regs.(a := value);
        SetZN(regs.a);
        cycles := 4;
      } else if opcode == 0x4c {
        var target := AddrAbsolute();
        regs := regs.(pc := target);
        cycles := 3;
      } else {
        var pointer := AddrAbsolute();
        var target := Read16Bug(pointer);
        regs := regs.(pc := target);
        cycles := 5;
      }
    }

    /** BRK: skip the padding byte, push PC and P with B and U, set I, jump through 0xFFFE. */
    method Brk() returns (cycles: nat)
      requires Valid()
      modifies this, bus.cells
      ensures State() == Mos6502.Brk(old(State())) && cycles == 7
    {
      var p := regs.p;
      regs := regs.(pc := (regs.pc + 1) % 0x1_0000);
      Push16(regs.pc);
      Push(Pack(p.(b := true, u := true)));
      regs := regs.(p := regs.p.(i := true));
      var target := Read16(0xfffe);
      regs := regs.(pc := target);
      cycles := 7;
    }

    /** CLC, SEC, CLI, SEI, CLV, CLD, SED. */
    method ExecuteFlag(opcode: byte) returns (cycles: nat)
      requires Valid() && opcode in FLAG_OPCODES
      modifies this
      ensures Executed(State(), cycles) == FlagOperation(old(State()), opcode)
    {
      if opcode == 0x18 {
        regs := regs.(p := regs.p.(c := false));
      } else if opcode == 0x38 {
        regs := regs.(p := regs.p.(c := true));
      } else if opcode == 0x58 {
        regs := regs.(p := regs.p.(i := false));
      } else if opcode == 0x78 {
        regs := regs.(p := regs.p.(i := true));
      } else if opcode == 0xb8 {
        regs := regs.(p := regs.p.(v := false));
      } else if opcode == 0xd8 {
        regs := regs.(p := regs.p.(d := false));
      } else {
        regs := regs.(p := regs.p.(d := true));
      }
      cycles := 2;
    }

    /** BIT, STY, LDY, CPY and CPX. */
    method ExecuteIndex(opcode: byte) returns (cycles: nat)
      requires Valid() && opcode in INDEX_OPCODES
      modifies this, bus.cells
      ensures Executed(State(), cycles) == IndexOperation(old(State()), opcode)
    {
      if opcode == 0x24 || opcode == 0x2c {
        var address: word;
        if opcode == 0x24 {
          address := AddrZeroPage();
        } else {
          address := AddrAbsolute();
        }
        var value := Read(address);
        Bit(value);
        cycles := if opcode == 0x24 then 3 else 4;
      } else if opcode == 0x84 || opcode == 0x94 || opcode == 0x8c {
        cycles := StoreY(opcode);
      } else if opcode == 0xa0 || opcode == 0xa4 || opcode == 0xb4 || opcode == 0xac || opcode == 0xbc {
        cycles := LoadY(opcode);
      } else {
        cycles := CompareIndex(opcode);
      }
    }

    /** STY zp, zp,X and abs. */
    method StoreY(opcode: byte) returns (cycles: nat)
      requires Valid() && (opcode == 0x84 || opcode == 0x94 || opcode == 0x8c)
      modifies this, bus.cells
      ensures Executed(State(), cycles) == IndexOperation(old(State()), opcode)
    {
      var address: word;
      if opcode == 0x84 {
        address := AddrZeroPage();
        cycles := 3;
      } else if opcode == 0x94 {
        address := AddrZeroPageX();
        cycles := 4;
      } else {
        address := AddrAbsolute();
        cycles := 4;
      }
      Write(address, regs.y);
    }

    /** LDY #imm, zp, zp,X, abs and abs,X (one more cycle on a page cross). */
    method LoadY(opcode: byte) returns (cycles: nat)
      requires Valid() && (opcode == 0xa0 || opcode == 0xa4 || opcode == 0xb4 || opcode == 0xac || opcode == 0xbc)
      modifies this
      ensures Executed(State(), cycles) == IndexOperation(old(State()), opcode)
    {
      var value: byte;
      if opcode == 0xa0 {
        value := ReadImmediate();
        cycles := 2;
      } else if opcode == 0xa4 {
        var address := AddrZeroPage();
        value := Read(address);
        cycles := 3;
      } else if opcode == 0xb4 {
        var address := AddrZeroPageX();
        value := Read(address);
        cycles := 4;
      } else if opcode == 0xac {
        var address := AddrAbsolute();
        value := Read(address);
        cycles := 4;
      } else {
        var resolved := AddrAbsoluteX();
        value := Read(resolved.address);
        cycles := 4 + if resolved.pageCross then 1 else 0;
      }
      regs := regs.(y := value);
      SetZN(regs.y);
    }

    /** CPY and CPX with #imm, zp and abs. */
    method CompareIndex(opcode: byte) returns (cycles: nat)
      requires Valid() && opcode in {0xc0, 0xc4, 0xcc, 0xe0, 0xe4, 0xec}
      modifies this
      ensures Executed(State(), cycles) == IndexOperation(old(State()), opcode)
    {
      var register := if opcode >= 0xe0 then regs.x else regs.y;
      var value: byte;
      if opcode % 0x20 == 0 {
        value := ReadImmediate();
        cycles := 2;
      } else if opcode % 0x10 == 4 {
        var address := AddrZeroPage();
        value := Read(address);
        cycles := 3;
      } else {
        var address := AddrAbsolute();
        value := Read(address);
        cycles := 4;
      }
      Compare(register, value);
    }

    /** The register transfers and the increments and decrements of X and Y. */
    method ExecuteImplied(opcode: byte) returns (cycles: nat)
      requires Valid() && opcode in IMPLIED_OPCODES
      modifies this
      ensures Executed(State(), cycles) == Implied(old(State()), opcode)
    {
      if opcode == 0x88 {
        regs := regs.(y := (regs.y - 1) % 0x100);
        SetZN(regs.y);
      } else if opcode == 0xa8 {
        regs := regs.(y := regs.a);
        SetZN(regs.y);
      } else if opcode == 0xc8 {
        regs := regs.(y := (regs.y + 1) % 0x100);
        SetZN(regs.y);
      } else if opcode == 0xe8 {
        regs := regs.(x := (regs.x + 1) % 0x100);
        SetZN(regs.x);
      } else if opcode == 0x8a {
        regs := regs.(a := regs.x);
        SetZN(regs.a);
      } else if opcode == 0x9a {
        regs := regs.(sp := regs.x);
      } else if opcode == 0xaa {
        regs := regs.(x := regs.a);
        SetZN(regs.x);
      } else if opcode == 0xba {
        regs := regs.(x := regs.sp);
        SetZN(regs.x);
      } else if opcode == 0x98 {
        regs := regs.(a := regs.y);
        SetZN(regs.a);
      } else {
        regs := regs.(x := (regs.x - 1) % 0x100);
        SetZN(regs.x);
      }
      cycles := 2;
    }

    /** NOP, the unofficial NOPs that read and skip their operand, and SBC #imm at 0xEB. */
    method ExecuteNop(opcode: byte) returns (cycles: nat)
      requires Valid() && opcode in NOP_OPCODES
      modifies this
      ensures Executed(State(), cycles) == Nop(old(State()), opcode)
    {
      if opcode == 0xeb {
        var value := ReadImmediate();
        Sbc(value);
        cycles := 2;
      } else if opcode in {0xea, 0x1a, 0x3a, 0x5a, 0x7a, 0xda, 0xfa} {
        cycles := 2;
      } else if opcode in {0x80, 0x82, 0x89, 0xc2, 0xe2} {
        var _ := ReadImmediate();
        cycles := 2;
      } else if opcode in {0x04, 0x44, 0x64} {
        var address := AddrZeroPage();
        var _ := Read(address);
        cycles := 3;
      } else if opcode in {0x14, 0x34, 0x54, 0x74, 0xd4, 0xf4} {
        var address := AddrZeroPageX();
        var _ := Read(address);
        cycles := 4;
      } else if opcode == 0x0c {
        var address := AddrAbsolute();
        var _ := Read(address);
        cycles := 4;
      } else {
        var resolved := AddrAbsoluteX();
        var _ := Read(resolved.address);
        cycles := 4 + if resolved.pageCross then 1 else 0;
      }
    }

    // ---------------------------------------------------------------- bus access

    method Read(address: word) returns (value: byte)
      requires Valid()
      ensures value == bus.cells[address]
    {
      value := bus.Read(address);
    }

    method Write(address: word, value: byte)
      requires Valid()
      modifies bus.cells
      ensures bus.cells[..] == old(bus.cells[..])[address := value]
    {
      bus.Write(address, value);
    }

    method Read16(address: word) returns (value: word)
      requires Valid()
      ensures value == Mos6502.Read16(bus.cells[..], address)
    {
      var low := Read(address);
      var high := Read((address + 1) % 0x1_0000);
      value := low as int + 0x100 * high as int;
    }

    method Read16Bug(address: word) returns (value: word)
      requires Valid()
      ensures value == Mos6502.Read16Bug(bus.cells[..], address)
    {
      var low := Read(address);
      var high := Read(address / 0x100 * 0x100 + (address + 1) % 0x100);
      value := low as int + 0x100 * high as int;
    }

    // ---------------------------------------------------------------- addressing

    method AddrImmediateAddress() returns (address: word)
      requires Valid()
      modifies this
      ensures address == Resolve(old(regs), bus.cells[..], Immediate).address
      ensures State() == Advance(old(State()), Immediate)
    {
      address := regs.pc;
      regs := regs.(pc := (regs.pc + 1) % 0x1_0000);
    }

    method ReadImmediate() returns (value: byte)
      requires Valid()
      modifies this
      ensures value == Fetched(old(State()), Immediate)
      ensures State() == Advance(old(State()), Immediate)
    {
      var address := AddrImmediateAddress();
      value := Read(address);
    }

    method AddrZeroPage() returns (address: byte)
      requires Valid()
      modifies this
      ensures address == Resolve(old(regs), bus.cells[..], ZeroPage).address
      ensures State() == Advance(old(State()), ZeroPage)
    {
      address := ReadImmediate();
    }

    method AddrZeroPageX() returns (address: byte)
      requires Valid()
      modifies this
      ensures address == Resolve(old(regs), bus.cells[..], ZeroPageX).address
      ensures State() == Advance(old(State()), ZeroPageX)
    {
      var zeroPage := ReadImmediate();
      address := (zeroPage + regs.x) % 0x100;
    }

    method AddrZeroPageY() returns (address: byte)
      requires Valid()
      modifies this
      ensures address == Resolve(old(regs), bus.cells[..], ZeroPageY).address
      ensures State() == Advance(old(State()), ZeroPageY)
    {
      var zeroPage := ReadImmediate();
      address := (zeroPage + regs.y) % 0x100;
    }

    method AddrAbsolute() returns (address: word)
      requires Valid()
      modifies this
      ensures address == Resolve(old(regs), bus.cells[..], Absolute).address
      ensures State() == Advance(old(State()), Absolute)
    {
      NextTwice(regs.pc);
      var low := ReadImmediate();
      var high := ReadImmediate();
      address := low as int + 0x100 * high as int;
    }

    method AddrAbsoluteX() returns (resolved: Operand)
      requires Valid()
      modifies this
      ensures resolved == Resolve(old(regs), bus.cells[..], AbsoluteX)
      ensures State() == Advance(old(State()), AbsoluteX)
    {
      var base := AddrAbsolute();
      var address := (base + regs.x) % 0x1_0000;
      resolved := Operand(address, base / 0x100 != address / 0x100);
    }

    method AddrAbsoluteY() returns (resolved: Operand)
      requires Valid()
      modifies this
      ensures resolved == Resolve(old(regs), bus.cells[..], AbsoluteY)
      ensures State() == Advance(old(State()), AbsoluteY)
    {
      var base := AddrAbsolute();
      var address := (base + regs.y) % 0x1_0000;
      resolved := Operand(address, base / 0x100 != address / 0x100);
    }

    method AddrIndirectX() returns (address: word)
      requires Valid()
      modifies this
      ensures address == Resolve(old(regs), bus.cells[..], IndirectX).address
      ensures State() == Advance(old(State()), IndirectX)
    {
      var operand := ReadImmediate();
      var zeroPage := (operand + regs.x) % 0x100;
      var low := Read(zeroPage);
      var high := Read((zeroPage as int + 1) % 0x100);
      address := low as int + 0x100 * high as int;
    }

    method AddrIndirectY() returns (resolved: Operand)
      requires Valid()
      modifies this
      ensures resolved == Resolve(old(regs), bus.cells[..], IndirectY)
      ensures State() == Advance(old(State()), IndirectY)
    {
      var zeroPage := ReadImmediate();
      var low := Read(zeroPage);
      var high := Read((zeroPage as int + 1) % 0x100);
      var base := low as int + 0x100 * high as int;
      var address := (base + regs.y) % 0x1_0000;
      resolved := Operand(address, base / 0x100 != address / 0x100);
    }

    // ---------------------------------------------------------------- flags and arithmetic

    method SetZN(value: byte)
      requires Valid()
      modifies this
      ensures regs == old(regs).(p := Mos6502.SetZN(old(regs.p), value)) && unknownOpcodes == old(unknownOpcodes)
    {
      regs := regs.(p := regs.p.(z := value == 0));
      regs := regs.(p := regs.p.(n := value >= 0x80));
    }

    method Adc(value: byte)
      requires Valid()
      modifies this
      ensures regs == Mos6502.Adc(old(regs), value) && unknownOpcodes == old(unknownOpcodes)
    {
      var carryIn := if regs.p.c then 1 else 0;
      var sum := regs.a + value + carryIn;
      var result := sum % 0x100;
      regs := regs.(p := regs.p.(c := sum > 0xff));
      regs := regs.(p := regs.p.(v := Overflow(regs.a, value, result)));
      regs := regs.(a := result);
      SetZN(regs.a);
    }

    method Sbc(value: byte)
      requires Valid()
      modifies this
      ensures regs == Mos6502.Sbc(old(regs), value) && unknownOpcodes == old(unknownOpcodes)
    {
      Adc(Complement(value));
    }

    method Compare(register: byte, value: byte)
      requires Valid()
      modifies this
      ensures regs == old(regs).(p := Mos6502.Compare(old(regs.p), register, value)) && unknownOpcodes == old(unknownOpcodes)
    {
      var result := (register - value) % 0x200;
      regs := regs.(p := regs.p.(c := register >= value));
      regs := regs.(p := regs.p.(z := result % 0x100 == 0));
      regs := regs.(p := regs.p.(n := (result / 0x80) % 2 == 1));
    }

    method Bit(value: byte)
      requires Valid()
      modifies this
      ensures regs == old(regs).(p := BitTest(old(regs.p), old(regs.a), value)) && unknownOpcodes == old(unknownOpcodes)
    {
      regs := regs.(p := regs.p.(z := And(regs.a, value, 8) == 0));
      regs := regs.(p := regs.p.(v := (value / 0x40) % 2 == 1));
      regs := regs.(p := regs.p.(n := value >= 0x80));
    }

    /** `branch(condition)`: read the offset; when taken, add it and count the page change. */
    method Branch(condition: bool) returns (cycles: nat)
      requires Valid()
      modifies this
      ensures Executed(State(), cycles) == Mos6502.Branch(old(State()), condition)
    {
      var offsetByte := ReadImmediate();
      var offset := if offsetByte < 0x80 then offsetByte as int else offsetByte as int - 0x100;
      cycles := 2;
      if !condition {
        return;
      }
      var previous := regs.pc;
      regs := regs.(pc := (regs.pc + offset) % 0x1_0000);
      cycles := cycles + 1;
      if previous / 0x100 != regs.pc / 0x100 {
        cycles := cycles + 1;
      }
    }

    // ---------------------------------------------------------------- stack and interrupts

    method Push(value: byte)
      requires Valid()
      modifies this, bus.cells
      ensures State() == Mos6502.Push(old(State()), value)
    {
      Write(0x100 + regs.sp, value);
      regs := regs.(sp := (regs.sp - 1) % 0x100);
    }

    method Pop() returns (value: byte)
      requires Valid()
      modifies this
      ensures (State(), value) == Mos6502.Pop(old(State()))
    {
      regs := regs.(sp := (regs.sp + 1) % 0x100);
      value := Read(0x100 + regs.sp);
    }

    method Push16(value: word)
      requires Valid()
      modifies this, bus.cells
      ensures State() == Mos6502.Push16(old(State()), value)
    {
      Push(value / 0x100);
      Push(value % 0x100);
    }

    method Pop16() returns (value: word)
      requires Valid()
      modifies this
      ensures (State(), value) == Mos6502.Pop16(old(State()))
    {
      var low := Pop();
      var high := Pop();
      value := low as int + 0x100 * high as int;
    }

    /** `interrupt(vector, isBreak)`: 7 cycles, already added to `totalCycles`. */
    method Interrupt(vector: word, isBreak: bool) returns (cycles: nat)
      requires Valid()
      modifies this, bus.cells
      ensures State() == Mos6502.Interrupt(old(State()), vector, isBreak) && cycles == 7
    {
      Push16(regs.pc);
      Push(Pack(regs.p.(b := isBreak, u := true)));
      regs := regs.(p := regs.p.(i := true));
      var target := Read16(vector);
      regs := regs.(pc := target, totalCycles := regs.totalCycles + 7);
      cycles := 7;
    }

    /** `illegal(opcode, cycles)`: throw in strict mode; otherwise count the opcode. */
    method Illegal(opcode: byte, cycles: nat) returns (result: Result<nat>)
      requires Valid()
      modifies this
      ensures Stepped(State(), result) == Mos6502.Illegal(old(State()), opcode, cycles, strictOpcodes)
    {
      if strictOpcodes {
        var programCounter := (regs.pc - 1) % 0x1_0000;
        return Err(Error("Unsupported opcode 0x" + JsString.HexString(opcode) + " at 0x" + JsString.HexString(programCounter)));
      }
      var count := Count(unknownOpcodes, opcode);
      unknownOpcodes := JsMap.Set(unknownOpcodes, opcode, count + 1);
      result := Ok(cycles);
    }

    // ---------------------------------------------------------------- snapshots

    method SaveState() returns (state: CpuState)
      ensures state == Save(regs, unknownOpcodes)
    {
      state := CpuState(regs.a, regs.x, regs.y, regs.sp, Pack(regs.p), regs.pc, regs.totalCycles, unknownOpcodes);
    }

    method LoadState(state: CpuState)
      modifies this
      ensures regs == LoadRegisters(state) && unknownOpcodes == JsMap.FromEntries(state.unknownOpcodes)
    {
      regs := Registers(state.a % 0x100, state.x % 0x100, state.y % 0x100, state.sp % 0x100,
                        Unpack(state.p % 0x100).(u := true), state.pc % 0x1_0000, state.totalCycles % 0x1_0000_0000);
      unknownOpcodes := JsMap.FromEntries(state.unknownOpcodes);
    }

    /** Saving and loading back gives the same processor while U is set, the cycle count fits 32 bits and the tally came from a `Map`. */
    method SaveLoad()
      requires regs.p.u && regs.totalCycles < 0x1_0000_0000 && JsMap.DistinctKeys(unknownOpcodes)
      modifies this
      ensures regs == old(regs) && unknownOpcodes == old(unknownOpcodes)
    {
      var state := SaveState();
      SaveLoadRoundTrip(regs, unknownOpcodes);
      SaveLoadTally(regs, unknownOpcodes);
      LoadState(state);
    }
  }
}
