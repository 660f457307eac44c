/** src/core/apu.mjs: the NES APU register file, kept only so that the status register reads back. */
module Apu {
  import opened Bits
  import opened Wrappers
  import opened TypedArray

  const REGISTER_COUNT: int := 0x18

  /** A snapshot: the register bytes and the cycle counter. */
  datatype ApuState = ApuState(registers: seq<int>, cycle: int)

  class APU {
    const registers: array<byte>
    var cycle: int

    ghost predicate Valid()
    {
      registers.Length == REGISTER_COUNT
    }

    constructor ()
      ensures Valid() && fresh(registers)
      ensures registers[..] == seq(REGISTER_COUNT, _ => 0) && cycle == 0
    {
      registers := new byte[REGISTER_COUNT](_ => 0);
      cycle := 0;
    }

    method Clock(cycles: int)
      modifies this
      ensures cycle == old(cycle) + cycles
    {
      cycle := cycle + cycles;
    }

    /** The status register, register 0x15. */
    method ReadStatus() returns (value: byte)
      requires Valid()
      ensures value == registers[0x15]
    {
      value := registers[0x15];
    }

    /** Stores `value & 0xff` at `address - 0x4000` when that index is a register; ignores the write otherwise. */
    method WriteRegister(address: int, value: int)
      requires Valid()
      modifies registers
      ensures 0 <= address - 0x4000 < REGISTER_COUNT ==>
        registers[..] == old(registers[..])[address - 0x4000 := value % 0x100]
      ensures !(0 <= address - 0x4000 < REGISTER_COUNT) ==> registers[..] == old(registers[..])
    {
      var index := address - 0x4000;
      if 0 <= index < registers.Length {
        registers[index] := value % 0x100;
      }
    }

    method SaveState() returns (state: ApuState)
      requires Valid()
      ensures state == ApuState(registers[..], cycle)
    {
      state := ApuState(registers[..], cycle);
    }

    /**
     * `registers.set(state.registers)` copies the snapshot's bytes (each
     * taken mod 256) over the first registers and throws a RangeError when
     * the snapshot holds more than 0x18; `cycle` becomes `state.cycle >>> 0`.
     */
    method LoadState(state: ApuState) returns (outcome: Outcome)
      requires Valid()
      modifies this, registers
      ensures Valid()
      ensures |state.registers| > REGISTER_COUNT ==>
        outcome.Fail? && outcome.error.RangeError? && registers[..] == old(registers[..]) && cycle == old(cycle)
      ensures |state.registers| <= REGISTER_COUNT ==>
        outcome == Done && registers[..] == SetContents(old(registers[..]), state.registers)
      ensures |state.registers| <= REGISTER_COUNT ==> cycle == state.cycle % 0x1_0000_0000
    {
      outcome := Set(registers, state.registers);
      if outcome.Fail? {
        return;
      }
      cycle := state.cycle % 0x1_0000_0000;
    }
  }

  /** Writing 0x4015 is what `readStatus` later reports. */
  method StatusReadsBackLastWrite(apu: APU, value: int) returns (status: byte)
    requires apu.Valid()
    modifies apu.registers
    ensures status == value % 0x100
  {
    apu.WriteRegister(0x4015, value);
    status := apu.ReadStatus();
  }

  /** A saved state loads back to the same registers, and the same cycle while it is below 2^32. */
  method SaveLoadRoundTrip(apu: APU) returns (outcome: Outcome)
    requires apu.Valid() && 0 <= apu.cycle < 0x1_0000_0000
    modifies apu, apu.registers
    ensures outcome == Done
    ensures apu.registers[..] == old(apu.registers[..]) && apu.cycle == old(apu.cycle)
  {
    var state := apu.SaveState();
    outcome := apu.LoadState(state);
    SetOwnContents(state.registers);
  }
}
