/**
 * src/core/bus.js: the NES CPU bus. It routes every CPU address to the
 * 2 KiB work RAM, the PPU ports, the APU, the joypads or the cartridge,
 * runs OAM DMA, clocks the APU and PPU, and holds the interrupt latches
 * and the DMA stall counter.
 */
module NesBus {
  import opened Bits
  import opened Wrappers
  import opened TypedArray
  import opened MapperBase
  import opened NesCartridge
  import opened NesController
  import opened Apu
  import opened NesPpu

  const RAM_SIZE: nat := 0x800

  /** Where a CPU read lands. */
  datatype ReadTarget =
    | RamByte(index: nat)
    | PpuPort(register: int)
    | ApuStatus
    | Joypad(player: nat)
    | CartridgeSpace(address: word)
    | Unmapped

  /** Where a CPU write lands. */
  datatype WriteTarget =
    | RamStore(index: nat)
    | PpuStore(register: int)
    | ApuStore(address: word)
    | OamDma
    | JoypadStrobe
    | CartridgeStore(address: word)
    | Dropped

  /** The routing of `read(address)` on `address & 0xffff`. */
  function ReadTargetOf(address: int): (t: ReadTarget)
    ensures var mapped := address % 0x10000;
      && (t.RamByte? <==> mapped < 0x2000)
      && (t.RamByte? ==> t.index == mapped % RAM_SIZE)
      && (t.PpuPort? <==> 0x2000 <= mapped < 0x4000)
      && (t.PpuPort? ==> t.register == PpuRegister(mapped))
      && (t.ApuStatus? <==> mapped == 0x4015)
      && (t.Joypad? <==> mapped == 0x4016 || mapped == 0x4017)
      && (t.Joypad? ==> t.player == mapped - 0x4016)
      && (t.CartridgeSpace? <==> mapped >= 0x4020)
      && (t.CartridgeSpace? ==> t.address == mapped)
      && (t.Unmapped? <==> 0x4000 <= mapped < 0x4020 && mapped != 0x4015 && mapped != 0x4016 && mapped != 0x4017)
  {
    var mapped := address % 0x10000;
    if mapped < 0x2000 then RamByte(mapped % RAM_SIZE)
    else if mapped < 0x4000 then PpuPort(0x2000 + mapped % 8)
    else if mapped == 0x4015 then ApuStatus
    else if mapped == 0x4016 then Joypad(0)
    else if mapped == 0x4017 then Joypad(1)
    else if mapped >= 0x4020 then CartridgeSpace(mapped)
    else Unmapped
  }

  /** The routing of `write(address, value)` on `address & 0xffff`. */
  function WriteTargetOf(address: int): (t: WriteTarget)
    ensures var mapped := address % 0x10000;
      && (t.RamStore? <==> mapped < 0x2000)
      && (t.RamStore? ==> t.index == mapped % RAM_SIZE)
      && (t.PpuStore? <==> 0x2000 <= mapped < 0x4000)
      && (t.PpuStore? ==> t.register == PpuRegister(mapped))
      && (t.ApuStore? <==> 0x4000 <= mapped <= 0x4013 || mapped == 0x4015 || mapped == 0x4017)
      && (t.ApuStore? ==> t.address == mapped && 0 <= t.address - 0x4000 < REGISTER_COUNT)
      && (t.OamDma? <==> mapped == 0x4014)
      && (t.JoypadStrobe? <==> mapped == 0x4016)
      && (t.CartridgeStore? <==> mapped >= 0x4020)
      && (t.CartridgeStore? ==> t.address == mapped)
      && (t.Dropped? <==> 0x4018 <= mapped < 0x4020)
  {
    var mapped := address % 0x10000;
    if mapped < 0x2000 then RamStore(mapped % RAM_SIZE)
    else if mapped < 0x4000 then PpuStore(0x2000 + mapped % 8)
    else if 0x4000 <= mapped <= 0x4013 then ApuStore(mapped)
    else if mapped == 0x4014 then OamDma
    else if mapped == 0x4015 || mapped == 0x4017 then ApuStore(mapped)
    else if mapped == 0x4016 then JoypadStrobe
    else if mapped >= 0x4020 then CartridgeStore(mapped)
    else Dropped
  }

  /** The OAM slot the `i`-th DMA byte lands in when the transfer starts at `start`. */
  function DmaSlot(start: byte, i: nat): (r: byte)
    requires i <= 0x100
    ensures r == (start + i) % 0x100
  {
    if start + i < 0x100 then start + i else start + i - 0x100
  }

  /** A whole bus snapshot: RAM, both joypads, APU, PPU, the latches and the counters. */
  datatype BusState = BusState(
    ram: seq<int>, controller1: ControllerState, controller2: ControllerState,
    apu: ApuState, ppu: PpuState,
    nmiPending: bool, irqPending: bool, stallCycles: int, cpuCycles: int)

  class Bus {
    const cartridge: Cartridge
    const ram: array<byte>
    const controller1: Controller
    const controller2: Controller
    const apu: APU
    const ppu: PPU
    var nmiPending: bool
    var irqPending: bool
    var stallCycles: int
    var cpuCycles: int

    ghost predicate Valid()
      reads controller1, controller2
    {
      && ppu.Valid() && ppu.cartridge == cartridge && apu.Valid()
      && ram.Length == RAM_SIZE
      && controller1 != controller2 && controller1.Valid() && controller2.Valid()
      && Separate()
    }

    /** Work RAM and the APU registers are buffers of their own. */
    ghost predicate Separate()
    {
      var chr, prgRam := cartridge.memory.chr, cartridge.memory.prgRam;
      && ram != apu.registers
      && ram != chr && ram != prgRam && ram != ppu.vram && ram != ppu.paletteRam && ram != ppu.oam
      && ram != ppu.scanlineBaseNameTable
      && apu.registers != chr && apu.registers != prgRam && apu.registers != ppu.vram
      && apu.registers != ppu.paletteRam && apu.registers != ppu.oam && apu.registers != ppu.scanlineBaseNameTable
    }

    constructor (cartridge: Cartridge)
      requires cartridge.Valid()
      ensures Valid() && this.cartridge == cartridge && ppu.cartridge == cartridge
      ensures ram[..] == seq(RAM_SIZE, _ => 0)
      ensures !nmiPending && !irqPending && stallCycles == 0 && cpuCycles == 0
      ensures ppu.regs == PpuRegisters(0, 0, 0, 0, 0, 0, 0, false, 0, 0, 0, 0, 0, 261, 0, false)
      ensures apu.registers[..] == seq(REGISTER_COUNT, _ => 0) && apu.cycle == 0
      ensures controller1.state == 0 && controller1.shift == 0 && controller1.strobe == 0
      ensures controller2.state == 0 && controller2.shift == 0 && controller2.strobe == 0
    {
      this.cartridge := cartridge;
      ram := new byte[RAM_SIZE](_ => 0);
      controller1 := new Controller();
      controller2 := new Controller();
      apu := new APU();
      ppu := new PPU(cartridge);
      nmiPending := false;
      irqPending := false;
      stallCycles := 0;
      cpuCycles := 0;
    }

    /** The value `read(address)` returns. */
    function Peek(address: int): (r: byte)
      requires Valid()
      reads this, ram, controller1, controller2, apu.registers
      reads ppu, ppu.oam, ppu.vram, ppu.paletteRam, cartridge.memory.chr, cartridge.memory.prgRam, ObjectOf(cartridge.mapper)
    {
      match ReadTargetOf(address)
      case RamByte(i) => ram[i]
      case PpuPort(register) => ppu.PeekRegister(register)
      case ApuStatus => apu.registers[0x15]
      case Joypad(player) => if player == 0 then controller1.Peek() else controller2.Peek()
      case CartridgeSpace(a) => cartridge.CpuRead(a)
      case Unmapped => 0
    }

    /**
     * `read(address)`. RAM, the APU status, the cartridge and the open
     * range change nothing; a PPU port read has the PPU's side effects and
     * a joypad read shifts that joypad.
     */
    method Read(address: int) returns (value: byte)
      requires Valid()
      modifies ppu, controller1, controller2
      ensures Valid() && value == old(Peek(address))
      ensures ppu.regs.oamAddr == old(ppu.regs.oamAddr) && ppu.regs.ctrl == old(ppu.regs.ctrl)
      ensures !ReadTargetOf(address).PpuPort? ==> ppu.regs == old(ppu.regs)
      ensures controller1.state == old(controller1.state) && controller1.strobe == old(controller1.strobe)
      ensures controller2.state == old(controller2.state) && controller2.strobe == old(controller2.strobe)
      ensures ReadTargetOf(address) != Joypad(0) ==> controller1.shift == old(controller1.shift)
      ensures ReadTargetOf(address) != Joypad(1) ==> controller2.shift == old(controller2.shift)
      ensures ReadTargetOf(address) == Joypad(0) && controller1.strobe == 0 ==> controller1.shift == ShiftOut(old(controller1.shift))
      ensures ReadTargetOf(address) == Joypad(1) && controller2.strobe == 0 ==> controller2.shift == ShiftOut(old(controller2.shift))
    {
      var target := ReadTargetOf(address);
      match target {
        case RamByte(i) =>
          value := ram[i];
        case PpuPort(register) =>
          value := ppu.ReadRegister(register);
        case ApuStatus =>
          value := apu.ReadStatus();
        case Joypad(player) =>
          var v: int;
          if player == 0 {
            v := controller1.Read();
          } else {
            v := controller2.Read();
          }
          value := v;
        case CartridgeSpace(a) =>
          value := cartridge.CpuRead(a);
        case Unmapped =>
          value := 0;
      }
    }

    /**
     * `write(address, value)` with the value masked to a byte: RAM, a PPU
     * port, an APU register, OAM DMA, both joypads' strobe, the cartridge,
     * or nowhere for 0x4018-0x401F. A PPU write that enables NMI inside
     * vblank raises the NMI latch.
     */
    method Write(address: int, value: int)
      requires Valid()
      modifies this, ram, ppu, ppu.oam, ppu.vram, ppu.paletteRam, apu.registers, controller1, controller2
      modifies cartridge.memory.chr, cartridge.memory.prgRam, ObjectOf(cartridge.mapper)
      ensures Valid()
      ensures irqPending == old(irqPending) && cpuCycles == old(cpuCycles)
      ensures WriteTargetOf(address).RamStore? ==>
        ram[..] == old(ram[..])[WriteTargetOf(address).index := value % 0x100]
      ensures !WriteTargetOf(address).RamStore? ==> ram[..] == old(ram[..])
      ensures WriteTargetOf(address).PpuStore? ==>
        ppu.regs == RegistersAfterWrite(old(ppu.regs), WriteTargetOf(address).register, value % 0x100)
      ensures WriteTargetOf(address).PpuStore? ==>
        (nmiPending <==>
          old(nmiPending) ||
          (WriteTargetOf(address).register == 0x2000 && !NmiEnabled(old(ppu.regs.ctrl)) && NmiEnabled(value % 0x100) && InVblank(old(ppu.regs.status))))
      ensures !WriteTargetOf(address).PpuStore? ==> nmiPending == old(nmiPending)
      ensures !WriteTargetOf(address).PpuStore? && !WriteTargetOf(address).OamDma? ==>
        ppu.regs == old(ppu.regs) && ppu.oam[..] == old(ppu.oam[..])
      ensures WriteTargetOf(address).ApuStore? ==>
        apu.registers[..] == old(apu.registers[..])[WriteTargetOf(address).address - 0x4000 := value % 0x100]
      ensures !WriteTargetOf(address).ApuStore? ==> apu.registers[..] == old(apu.registers[..])
      ensures WriteTargetOf(address).OamDma? ==> stallCycles == old(stallCycles) + 513 + old(cpuCycles) % 2
      ensures !WriteTargetOf(address).OamDma? ==> stallCycles == old(stallCycles)
      ensures WriteTargetOf(address).JoypadStrobe? ==>
        && controller1.strobe == value % 2 && controller2.strobe == value % 2
        && controller1.shift == (if value % 2 == 1 then controller1.state else old(controller1.shift))
        && controller2.shift == (if value % 2 == 1 then controller2.state else old(controller2.shift))
      ensures WriteTargetOf(address).CartridgeStore? ==>
        Register(cartridge.mapper) == RegisterAfterCpuWrite(KindOf(cartridge.mapper), old(Register(cartridge.mapper)), address % 0x10000, value % 0x100)
      ensures !WriteTargetOf(address).CartridgeStore? ==> Register(cartridge.mapper) == old(Register(cartridge.mapper))
      ensures WriteTargetOf(address).CartridgeStore? && InPrgRam(address % 0x10000) ==>
        cartridge.memory.prgRam[..] == PrgRamWrite(old(cartridge.memory.prgRam[..]), address % 0x10000, value)
      ensures !(WriteTargetOf(address).CartridgeStore? && InPrgRam(address % 0x10000)) ==>
        cartridge.memory.prgRam[..] == old(cartridge.memory.prgRam[..])
    {
      var b := value % 0x100;
      var target := WriteTargetOf(address);
      if target.RamStore? || target.PpuStore? {
        StoreMemory(target, b);
      } else {
        StoreDevice(target, b);
      }
    }

    /** The RAM and PPU-port half of `write`. */
    method StoreMemory(target: WriteTarget, b: byte)
      requires Valid() && (target.PpuStore? || target.RamStore?)
      requires target.RamStore? ==> target.index < RAM_SIZE
      requires target.PpuStore? ==> 0x2000 <= target.register < 0x2008
      modifies this, ram, ppu, ppu.oam, ppu.vram, ppu.paletteRam, cartridge.memory.chr
      ensures Valid()
      ensures irqPending == old(irqPending) && cpuCycles == old(cpuCycles) && stallCycles == old(stallCycles)
      ensures target.RamStore? ==> ram[..] == old(ram[..])[target.index := b]
      ensures target.RamStore? ==> ppu.regs == old(ppu.regs) && ppu.oam[..] == old(ppu.oam[..])
      ensures target.RamStore? ==> nmiPending == old(nmiPending)
      ensures target.PpuStore? ==> ram[..] == old(ram[..])
      ensures target.PpuStore? ==> ppu.regs == RegistersAfterWrite(old(ppu.regs), target.register, b)
      ensures target.PpuStore? ==>
        (nmiPending <==>
          old(nmiPending) ||
          (target.register == 0x2000 && !NmiEnabled(old(ppu.regs.ctrl)) && NmiEnabled(b) && InVblank(old(ppu.regs.status))))
    {
      if target.RamStore? {
        ram[target.index] := b;
      } else {
        StorePpu(target.register, b);
      }
    }

    /** A PPU port write, which raises the NMI latch when the PPU asks for an NMI. */
    method StorePpu(register: int, b: byte)
      requires Valid() && 0x2000 <= register < 0x2008
      modifies this, ppu, ppu.oam, ppu.vram, ppu.paletteRam, cartridge.memory.chr
      ensures Valid()
      ensures irqPending == old(irqPending) && cpuCycles == old(cpuCycles) && stallCycles == old(stallCycles)
      ensures ppu.regs == RegistersAfterWrite(old(ppu.regs), register, b)
      ensures nmiPending <==>
        old(nmiPending) || (register == 0x2000 && !NmiEnabled(old(ppu.regs.ctrl)) && NmiEnabled(b) && InVblank(old(ppu.regs.status)))
    {
      assert PpuRegister(register) == register && b % 0x100 == b;
      var nmi := ppu.WriteRegister(register, b);
      if nmi {
        nmiPending := true;
      }
    }

    /** The APU, DMA, joypad and cartridge half of `write`. */
    method StoreDevice(target: WriteTarget, b: byte)
      requires Valid() && !target.RamStore? && !target.PpuStore?
      requires target.ApuStore? ==> 0 <= target.address - 0x4000 < REGISTER_COUNT
      modifies this, ppu, ppu.oam, apu.registers, controller1, controller2
      modifies cartridge.memory.prgRam, ObjectOf(cartridge.mapper)
      ensures Valid()
      ensures irqPending == old(irqPending) && cpuCycles == old(cpuCycles) && nmiPending == old(nmiPending)
      ensures !target.OamDma? ==> ppu.regs == old(ppu.regs) && ppu.oam[..] == old(ppu.oam[..])
      ensures target.ApuStore? ==> apu.registers[..] == old(apu.registers[..])[target.address - 0x4000 := b]
      ensures !target.ApuStore? ==> apu.registers[..] == old(apu.registers[..])
      ensures target.OamDma? ==> stallCycles == old(stallCycles) + 513 + old(cpuCycles) % 2
      ensures !target.OamDma? ==> stallCycles == old(stallCycles)
      ensures target.JoypadStrobe? ==>
        && controller1.strobe == b % 2 && controller2.strobe == b % 2
        && controller1.shift == (if b % 2 == 1 then controller1.state else old(controller1.shift))
        && controller2.shift == (if b % 2 == 1 then controller2.state else old(controller2.shift))
      ensures target.CartridgeStore? ==>
        Register(cartridge.mapper) == RegisterAfterCpuWrite(KindOf(cartridge.mapper), old(Register(cartridge.mapper)), target.address, b)
      ensures !target.CartridgeStore? ==> Register(cartridge.mapper) == old(Register(cartridge.mapper))
      ensures target.CartridgeStore? && InPrgRam(target.address) ==>
        cartridge.memory.prgRam[..] == PrgRamWrite(old(cartridge.memory.prgRam[..]), target.address, b)
      ensures !(target.CartridgeStore? && InPrgRam(target.address)) ==>
        cartridge.memory.prgRam[..] == old(cartridge.memory.prgRam[..])
    {
      if target.CartridgeStore? {
        cartridge.CpuWrite(target.address, b);
      } else {
        StorePort(target, b);
      }
    }

    /** The APU, DMA and joypad writes, which leave the cartridge alone. */
    method StorePort(target: WriteTarget, b: byte)
      requires Valid() && (target.ApuStore? || target.OamDma? || target.JoypadStrobe? || target.Dropped?)
      requires target.ApuStore? ==> 0 <= target.address - 0x4000 < REGISTER_COUNT
      modifies this, ppu, ppu.oam, apu.registers, controller1, controller2
      ensures Valid()
      ensures irqPending == old(irqPending) && cpuCycles == old(cpuCycles) && nmiPending == old(nmiPending)
      ensures !target.OamDma? ==> ppu.regs == old(ppu.regs) && ppu.oam[..] == old(ppu.oam[..])
      ensures target.ApuStore? ==> apu.registers[..] == old(apu.registers[..])[target.address - 0x4000 := b]
      ensures !target.ApuStore? ==> apu.registers[..] == old(apu.registers[..])
      ensures target.OamDma? ==> stallCycles == old(stallCycles) + 513 + old(cpuCycles) % 2
      ensures !target.OamDma? ==> stallCycles == old(stallCycles)
      ensures target.JoypadStrobe? ==>
        && controller1.strobe == b % 2 && controller2.strobe == b % 2
        && controller1.shift == (if b % 2 == 1 then controller1.state else old(controller1.shift))
        && controller2.shift == (if b % 2 == 1 then controller2.state else old(controller2.shift))
    {
      match target {
        case ApuStore(a) =>
          apu.WriteRegister(a, b);
        case OamDma =>
          DoOamDma(b);
        case JoypadStrobe =>
          controller1.Write(b);
          controller2.Write(b);
        case Dropped =>
      }
    }

    /**
     * `#doOamDma(page)`: 256 bus reads from `page << 8` on, each written
     * to OAM at the advancing OAM address, then a stall of 513 cycles plus
     * one on an odd CPU cycle. The OAM address ends where it started. For
     * a RAM or cartridge page the reads change nothing, so OAM receives the
     * page's bytes in order.
     */
    method DoOamDma(page: byte)
      requires Valid()
      modifies this, ppu, ppu.oam, controller1, controller2
      ensures Valid()
      ensures stallCycles == old(stallCycles) + 513 + old(cpuCycles) % 2
      ensures nmiPending == old(nmiPending) && irqPending == old(irqPending) && cpuCycles == old(cpuCycles)
      ensures ppu.regs.oamAddr == old(ppu.regs.oamAddr)
      ensures page < 0x20 || page > 0x40 ==> ppu.regs == old(ppu.regs)
      ensures page < 0x20 ==>
        forall i :: 0 <= i < 0x100 ==> ppu.oam[DmaSlot(old(ppu.regs.oamAddr), i)] == ram[(page * 0x100 + i) % RAM_SIZE]
      ensures page > 0x40 ==>
        forall i :: 0 <= i < 0x100 ==> ppu.oam[DmaSlot(old(ppu.regs.oamAddr), i)] == cartridge.CpuRead(page * 0x100 + i)
    {
      ghost var start := ppu.regs.oamAddr;
      ghost var registers := ppu.regs;
      var index := 0;
      while index < 0x100
        modifies ppu, ppu.oam, controller1, controller2
        invariant 0 <= index <= 0x100 && Valid()
        invariant ppu.regs.oamAddr == DmaSlot(start, index)
        invariant page < 0x20 || page > 0x40 ==> ppu.regs == registers.(oamAddr := DmaSlot(start, index))
        invariant DmaCopied(page, start, index)
      {
        DmaStep(page, start, index);
        index := index + 1;
      }
      stallCycles := stallCycles + 513 + cpuCycles % 2;
    }

    /** The first `count` DMA transfers from a RAM or cartridge page have landed in OAM from `start` on. */
    ghost predicate DmaCopied(page: byte, start: byte, count: nat)
      requires Valid() && count <= 0x100
      reads this, controller1, controller2, ram, ppu, ppu.oam, cartridge.memory.prgRam, ObjectOf(cartridge.mapper)
    {
      && (page < 0x20 ==>
            forall i :: 0 <= i < count ==> ppu.oam[DmaSlot(start, i)] == ram[(page * 0x100 + i) % RAM_SIZE])
      && (page > 0x40 ==>
            forall i :: 0 <= i < count ==> ppu.oam[DmaSlot(start, i)] == cartridge.CpuRead(page * 0x100 + i))
    }

    /** Transfer number `index` of a DMA from `page`, which keeps `DmaCopied` one transfer further. */
    method DmaStep(page: byte, ghost start: byte, index: nat)
      requires Valid() && index < 0x100 && ppu.regs.oamAddr == DmaSlot(start, index)
      requires DmaCopied(page, start, index)
      modifies ppu, ppu.oam, controller1, controller2
      ensures Valid() && ppu.regs.oamAddr == DmaSlot(start, index + 1)
      ensures page < 0x20 || page > 0x40 ==> ppu.regs == old(ppu.regs).(oamAddr := DmaSlot(start, index + 1))
      ensures DmaCopied(page, start, index + 1)
    {
      var base := page * 0x100;
      var address := (base + index) % 0x10000;
      assert address == base + index;
      assert page < 0x20 ==> ReadTargetOf(address) == RamByte((base + index) % RAM_SIZE);
      assert page > 0x40 ==> ReadTargetOf(address) == CartridgeSpace(base + index);
      assert DmaSlot(start, index + 1) == (DmaSlot(start, index) + 1) % 0x100;
      DmaByte(address);
    }

    /** One DMA transfer: a bus read stored at the OAM address, which then advances. */
    method DmaByte(address: int)
      requires Valid()
      modifies ppu, ppu.oam, controller1, controller2
      ensures Valid()
      ensures ppu.oam[..] == old(ppu.oam[..])[old(ppu.regs.oamAddr) := old(Peek(address))]
      ensures ppu.regs.oamAddr == (old(ppu.regs.oamAddr) + 1) % 0x100
      ensures !ReadTargetOf(address).PpuPort? ==>
        ppu.regs == old(ppu.regs).(oamAddr := (old(ppu.regs.oamAddr) + 1) % 0x100)
    {
      var b := Read(address);
      ppu.WriteOamDma(b);
    }

    /**
     * `clock(cycles)`: the CPU cycle counter and the APU advance by
     * `cycles`, the PPU by three dots per cycle; an NMI the PPU raises on
     * the way sets the NMI latch.
     */
    method Clock(cycles: int)
      requires Valid()
      modifies this, apu, ppu, ppu.scanlineScrollX, ppu.scanlineScrollY, ppu.scanlineBaseNameTable
      ensures Valid()
      ensures cpuCycles == old(cpuCycles) + cycles && apu.cycle == old(apu.cycle) + cycles
      ensures irqPending == old(irqPending) && stallCycles == old(stallCycles)
      ensures Ports(ppu.regs) == Ports(old(ppu.regs))
      ensures var dots := old(DotIndex(ppu.regs.cycle, ppu.regs.scanline)) + (if cycles > 0 then 3 * cycles else 0);
        DotIndex(ppu.regs.cycle, ppu.regs.scanline) == dots % FRAME_DOTS && ppu.regs.frame == old(ppu.regs.frame) + dots / FRAME_DOTS
      ensures nmiPending <==>
        old(nmiPending) ||
        (NmiEnabled(ppu.regs.ctrl) && PassesVblankStart(old(DotIndex(ppu.regs.cycle, ppu.regs.scanline)), if cycles > 0 then 3 * cycles else 0))
    {
      cpuCycles := cpuCycles + cycles;
      apu.Clock(cycles);
      var nmi := ppu.Clock(cycles * 3);
      if nmi {
        nmiPending := true;
      }
    }

    /** `consumeStallCycles`: hands out the stall counter and clears it. */
    method ConsumeStallCycles() returns (cycles: int)
      modifies this
      ensures cycles == old(stallCycles) && stallCycles == 0
      ensures nmiPending == old(nmiPending) && irqPending == old(irqPending) && cpuCycles == old(cpuCycles)
    {
      cycles := stallCycles;
      stallCycles := 0;
    }

    method RequestNMI()
      modifies this
      ensures nmiPending && irqPending == old(irqPending)
      ensures stallCycles == old(stallCycles) && cpuCycles == old(cpuCycles)
    {
      nmiPending := true;
    }

    method RequestIRQ()
      modifies this
      ensures irqPending && nmiPending == old(nmiPending)
      ensures stallCycles == old(stallCycles) && cpuCycles == old(cpuCycles)
    {
      irqPending := true;
    }

    /** `pollNMI`: reports a pending NMI once and clears the latch. */
    method PollNMI() returns (pending: bool)
      modifies this
      ensures pending == old(nmiPending) && !nmiPending && irqPending == old(irqPending)
      ensures stallCycles == old(stallCycles) && cpuCycles == old(cpuCycles)
    {
      if !nmiPending {
        return false;
      }
      nmiPending := false;
      pending := true;
    }

    /** `pollIRQ`: reports a pending IRQ once and clears the latch. */
    method PollIRQ() returns (pending: bool)
      modifies this
      ensures pending == old(irqPending) && !irqPending && nmiPending == old(nmiPending)
      ensures stallCycles == old(stallCycles) && cpuCycles == old(cpuCycles)
    {
      if !irqPending {
        return false;
      }
      irqPending := false;
      pending := true;
    }

    method SaveState() returns (state: BusState)
      requires Valid()
      ensures state.ram == ram[..]
      ensures state.controller1 == ControllerState(controller1.state, controller1.shift, controller1.strobe)
      ensures state.controller2 == ControllerState(controller2.state, controller2.shift, controller2.strobe)
      ensures state.apu == ApuState(apu.registers[..], apu.cycle)
      ensures state.ppu == PpuState(ppu.regs, Some(ppu.scanlineScrollX[..]), Some(ppu.scanlineScrollY[..]),
                                    Some(ppu.scanlineBaseNameTable[..]), ppu.vram[..], ppu.paletteRam[..], ppu.oam[..])
      ensures state.nmiPending == nmiPending && state.irqPending == irqPending
      ensures state.stallCycles == stallCycles && state.cpuCycles == cpuCycles
    {
      var c1 := controller1.SaveState();
      var c2 := controller2.SaveState();
      var a := apu.SaveState();
      var p := ppu.SaveState();
      state := BusState(ram[..], c1, c2, a, p, nmiPending, irqPending, stallCycles, cpuCycles);
    }

    /**
     * `loadState`: RAM, both joypads, the APU, the PPU, then the latches
     * and counters. The first `set` that meets a buffer longer than its
     * target throws a RangeError and the rest is not restored.
     */
    method LoadState(state: BusState) returns (outcome: Outcome)
      requires Valid()
      modifies this, ram, controller1, controller2, apu, apu.registers
      modifies ppu, ppu.scanlineScrollX, ppu.scanlineScrollY, ppu.scanlineBaseNameTable, ppu.vram, ppu.paletteRam, ppu.oam
      ensures Valid()
      ensures outcome == Done <==> |state.ram| <= RAM_SIZE && |state.apu.registers| <= REGISTER_COUNT && LoadFits(state.ppu)
      ensures outcome.Fail? ==> outcome.error.RangeError?
      ensures |state.ram| > RAM_SIZE ==> ram[..] == old(ram[..]) && apu.registers[..] == old(apu.registers[..])
      ensures outcome == Done ==>
        && ram[..] == SetContents(old(ram[..]), state.ram)
        && controller1.state == state.controller1.state % 0x100 && controller1.shift == state.controller1.shift % 0x100
        && controller1.strobe == state.controller1.strobe % 2
        && controller2.state == state.controller2.state % 0x100 && controller2.shift == state.controller2.shift % 0x100
        && controller2.strobe == state.controller2.strobe % 2
        && apu.registers[..] == SetContents(old(apu.registers[..]), state.apu.registers)
        && apu.cycle == state.apu.cycle % 0x1_0000_0000
        && ppu.regs == state.ppu.registers
        && ppu.vram[..] == SetContents(old(ppu.vram[..]), state.ppu.vram)
        && ppu.paletteRam[..] == SetContents(old(ppu.paletteRam[..]), state.ppu.paletteRam)
        && ppu.oam[..] == SetContents(old(ppu.oam[..]), state.ppu.oam)
        && nmiPending == state.nmiPending && irqPending == state.irqPending
        && stallCycles == state.stallCycles && cpuCycles == state.cpuCycles
    {
      outcome := Set(ram, state.ram);
      if outcome == Done {
        outcome := LoadRest(state);
      }
    }

    /** Everything `loadState` restores after work RAM. */
    method LoadRest(state: BusState) returns (outcome: Outcome)
      requires Valid()
      modifies this, controller1, controller2, apu, apu.registers
      modifies ppu, ppu.scanlineScrollX, ppu.scanlineScrollY, ppu.scanlineBaseNameTable, ppu.vram, ppu.paletteRam, ppu.oam
      ensures Valid()
      ensures outcome == Done <==> |state.apu.registers| <= REGISTER_COUNT && LoadFits(state.ppu)
      ensures outcome.Fail? ==> outcome.error.RangeError?
      ensures outcome == Done ==>
        && controller1.state == state.controller1.state % 0x100 && controller1.shift == state.controller1.shift % 0x100
        && controller1.strobe == state.controller1.strobe % 2
        && controller2.state == state.controller2.state % 0x100 && controller2.shift == state.controller2.shift % 0x100
        && controller2.strobe == state.controller2.strobe % 2
        && apu.registers[..] == SetContents(old(apu.registers[..]), state.apu.registers)
        && apu.cycle == state.apu.cycle % 0x1_0000_0000
        && ppu.regs == state.ppu.registers
        && ppu.vram[..] == SetContents(old(ppu.vram[..]), state.ppu.vram)
        && ppu.paletteRam[..] == SetContents(old(ppu.paletteRam[..]), state.ppu.paletteRam)
        && ppu.oam[..] == SetContents(old(ppu.oam[..]), state.ppu.oam)
        && nmiPending == state.nmiPending && irqPending == state.irqPending
        && stallCycles == state.stallCycles && cpuCycles == state.cpuCycles
    {
      outcome := LoadDevices(state);
      if outcome == Done {
        outcome := ppu.LoadState(state.ppu);
      }
      if outcome == Done {
        nmiPending, irqPending, stallCycles, cpuCycles := state.nmiPending, state.irqPending, state.stallCycles, state.cpuCycles;
      }
    }

    /** The joypad and APU steps of `loadState`. */
    method LoadDevices(state: BusState) returns (outcome: Outcome)
      requires Valid()
      modifies controller1, controller2, apu, apu.registers
      ensures Valid()
      ensures outcome == Done <==> |state.apu.registers| <= REGISTER_COUNT
      ensures outcome.Fail? ==> outcome.error.RangeError?
      ensures controller1.state == state.controller1.state % 0x100 && controller1.shift == state.controller1.shift % 0x100
      ensures controller1.strobe == state.controller1.strobe % 2
      ensures controller2.state == state.controller2.state % 0x100 && controller2.shift == state.controller2.shift % 0x100
      ensures controller2.strobe == state.controller2.strobe % 2
      ensures outcome == Done ==>
        && apu.registers[..] == SetContents(old(apu.registers[..]), state.apu.registers)
        && apu.cycle == state.apu.cycle % 0x1_0000_0000
    {
      controller1.LoadState(state.controller1);
      controller2.LoadState(state.controller2);
      outcome := apu.LoadState(state.apu);
    }
  }

  /** A saved bus loads back to the same machine, the APU cycle counter included while it is below 2^32. */
  method SaveLoadRoundTrip(bus: Bus) returns (outcome: Outcome)
    requires bus.Valid() && 0 <= bus.apu.cycle < 0x1_0000_0000
    modifies bus, bus.ram, bus.controller1, bus.controller2, bus.apu, bus.apu.registers
    modifies bus.ppu, bus.ppu.scanlineScrollX, bus.ppu.scanlineScrollY, bus.ppu.scanlineBaseNameTable
    modifies bus.ppu.vram, bus.ppu.paletteRam, bus.ppu.oam
    ensures outcome == Done
    ensures bus.ram[..] == old(bus.ram[..])
    ensures bus.apu.registers[..] == old(bus.apu.registers[..]) && bus.apu.cycle == old(bus.apu.cycle)
    ensures bus.ppu.regs == old(bus.ppu.regs)
    ensures bus.ppu.vram[..] == old(bus.ppu.vram[..]) && bus.ppu.paletteRam[..] == old(bus.ppu.paletteRam[..])
    ensures bus.ppu.oam[..] == old(bus.ppu.oam[..])
    ensures bus.controller1.state == old(bus.controller1.state) && bus.controller1.shift == old(bus.controller1.shift)
    ensures bus.controller1.strobe == old(bus.controller1.strobe)
    ensures bus.controller2.state == old(bus.controller2.state) && bus.controller2.shift == old(bus.controller2.shift)
    ensures bus.controller2.strobe == old(bus.controller2.strobe)
    ensures bus.nmiPending == old(bus.nmiPending) && bus.irqPending == old(bus.irqPending)
    ensures bus.stallCycles == old(bus.stallCycles) && bus.cpuCycles == old(bus.cpuCycles)
  {
    var state := bus.SaveState();
    SetOwnContents(state.ram);
    SetOwnContents(state.apu.registers);
    SetOwnContents(state.ppu.vram);
    SetOwnContents(state.ppu.paletteRam);
    SetOwnContents(state.ppu.oam);
    outcome := bus.LoadState(state);
  }

  /** Work RAM repeats every 2 KiB up to 0x1FFF. */
  lemma RamMirrors(address: int)
    requires 0 <= address < 0x1800
    ensures ReadTargetOf(address) == ReadTargetOf(address + RAM_SIZE)
    ensures WriteTargetOf(address) == WriteTargetOf(address + RAM_SIZE)
  {
  }

  /** The eight PPU ports repeat every 8 bytes up to 0x3FFF. */
  lemma PpuPortsMirror(address: int)
    requires 0x2000 <= address < 0x3ff8
    ensures ReadTargetOf(address) == ReadTargetOf(address + 8)
    ensures WriteTargetOf(address) == WriteTargetOf(address + 8)
  {
    DivModOf(address, 0x10000, 0, address);
    DivModOf(address + 8, 0x10000, 0, address + 8);
    DivModOf(address + 8, 8, address / 8 + 1, address % 8);
  }

  /** Only the low 16 bits of an address matter. */
  lemma AddressWraps(address: int)
    ensures ReadTargetOf(address) == ReadTargetOf(address + 0x10000)
    ensures WriteTargetOf(address) == WriteTargetOf(address + 0x10000)
  {
    assert (address + 0x10000) % 0x10000 == address % 0x10000;
  }

  /** A byte written to work RAM reads back, masked to 8 bits, at every mirror of its address. */
  method RamWriteThenRead(bus: Bus, address: int, value: int, mirror: nat) returns (read: byte)
    requires bus.Valid() && 0 <= address < RAM_SIZE && mirror < 4
    modifies bus, bus.ram, bus.ppu, bus.ppu.oam, bus.ppu.vram, bus.ppu.paletteRam, bus.apu.registers
    modifies bus.controller1, bus.controller2
    modifies bus.cartridge.memory.chr, bus.cartridge.memory.prgRam, ObjectOf(bus.cartridge.mapper)
    ensures read == value % 0x100
  {
    var mirrored := address + mirror * RAM_SIZE;
    DivModOf(address, 0x10000, 0, address);
    DivModOf(mirrored, 0x10000, 0, mirrored);
    DivModOf(mirrored, RAM_SIZE, mirror, address);
    assert WriteTargetOf(address) == RamStore(address);
    assert ReadTargetOf(mirrored) == RamByte(address);
    bus.Write(address, value);
    assert bus.ram[address] == value % 0x100;
    read := bus.Read(mirrored);
  }

  /** A latched NMI is seen by exactly one poll. */
  method PollOnce(bus: Bus) returns (first: bool, second: bool)
    modifies bus
    ensures first == old(bus.nmiPending) && !second && !bus.nmiPending
  {
    first := bus.PollNMI();
    second := bus.PollNMI();
  }

  /** With NMI enabled, clocking one frame's worth of CPU cycles always raises the NMI latch. */
  method FrameRaisesNmi(bus: Bus, cycles: int)
    requires bus.Valid() && NmiEnabled(bus.ppu.regs.ctrl) && 3 * cycles >= FRAME_DOTS
    modifies bus, bus.apu, bus.ppu, bus.ppu.scanlineScrollX, bus.ppu.scanlineScrollY, bus.ppu.scanlineBaseNameTable
    ensures bus.nmiPending
  {
    FramePassesVblankStart(DotIndex(bus.ppu.regs.cycle, bus.ppu.regs.scanline), 3 * cycles);
    bus.Clock(cycles);
  }
}
