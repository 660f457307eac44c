/**
 * src/core/ppu.mjs: the NES picture unit's registers, memories and dot
 * timing. A call to `bus.requestNMI()` becomes an `nmi` result that the bus
 * turns into its latch.
 */
module NesPpu {
  import opened Bits
  import opened Wrappers
  import opened TypedArray
  import opened INes
  import opened NesCartridge

  const DOTS_PER_LINE: nat := 341
  const LINES_PER_FRAME: nat := 262
  const FRAME_DOTS: nat := 341 * 262
  const VISIBLE_LINES: nat := 240

  const VRAM_SIZE: nat := 0x1000
  const PALETTE_SIZE: nat := 0x20
  const OAM_SIZE: nat := 0x100

  type Dot = x: int | 0 <= x <= 340
  type Line = x: int | 0 <= x <= 261
  /** The 15-bit loopy registers `vramAddress` and `tempAddress`. */
  type Addr15 = x: int | 0 <= x < 0x8000
  type Fine = x: int | 0 <= x < 8

  /** Status bit 7 (vblank), bit 6 (sprite-0 hit) and bit 5 (sprite overflow). */
  predicate InVblank(status: byte) { status >= 0x80 }
  predicate Sprite0Hit(status: byte) { (status / 0x40) % 2 == 1 }
  predicate SpriteOverflow(status: byte) { (status / 0x20) % 2 == 1 }

  /** Ctrl bit 7: NMI at vblank. */
  predicate NmiEnabled(ctrl: byte) { ctrl >= 0x80 }

  /** `#vramIncrement`: 32 when ctrl bit 2 is set, else 1. */
  function VramIncrement(ctrl: byte): (r: nat)
    ensures r == 1 || r == 32
    ensures r == 32 <==> (ctrl / 4) % 2 == 1
  {
    if (ctrl / 4) % 2 == 1 then 32 else 1
  }

  /** The position of a dot inside the frame, counting from scanline 0 dot 0. */
  function DotIndex(cycle: Dot, scanline: Line): (r: nat)
    ensures r < FRAME_DOTS
  {
    scanline * DOTS_PER_LINE + cycle
  }

  /** Which of the four 1 KiB tables of `vram` a nametable number lands in. */
  function TableSlot(table: nat, mirroring: Mirroring): (r: nat)
    requires table < 4
    ensures r < 4
    ensures mirroring == FourScreen ==> r == table
    ensures mirroring == Vertical ==> r == table % 2
    ensures mirroring == Horizontal ==> r == table / 2
  {
    match mirroring
    case FourScreen => table
    case Vertical => table % 2
    case Horizontal => (table / 2) % 2
  }

  /**
   * `#nameTableIndex`: the offset into the 4 KiB `vram` of a nametable
   * address. Four-screen keeps all four tables, vertical mirroring keeps
   * table bit 0 and horizontal keeps table bit 1.
   */
  function NameTableIndex(address: int, mirroring: Mirroring): (r: nat)
    ensures r < VRAM_SIZE
  {
    var offset := (address - 0x2000) % 0x1000;
    TableSlot(offset / 0x400, mirroring) * 0x400 + offset % 0x400
  }

  /** Inside the name-table space the offset is the address less 0x2000. */
  lemma NameTableAt(offset: nat, mirroring: Mirroring)
    requires offset < 0x1000
    ensures NameTableIndex(0x2000 + offset, mirroring) == TableSlot(offset / 0x400, mirroring) * 0x400 + offset % 0x400
  {
    assert 0x2000 + offset - 0x2000 == offset;
    DivModOf(offset, 0x1000, 0, offset);
  }

  /** `#paletteIndex`: the address mod 32, with the sprite backdrop entries aliased onto the background ones. */
  function PaletteIndex(address: int): (r: nat)
    ensures r < PALETTE_SIZE
    ensures r != 0x10 && r != 0x14 && r != 0x18 && r != 0x1c
    ensures var i := (address - 0x3f00) % 0x20;
      r == (if i == 0x10 || i == 0x14 || i == 0x18 || i == 0x1c then i - 0x10 else i)
  {
    var index := (address - 0x3f00) % 0x20;
    if index == 0x10 then 0x00
    else if index == 0x14 then 0x04
    else if index == 0x18 then 0x08
    else if index == 0x1c then 0x0c
    else index
  }

  /** Writing ctrl: `(t & 0xf3ff) | ((byte & 0x03) << 10)`, the nametable select goes to bits 10-11. */
  function TempAfterCtrl(t: Addr15, value: byte): (r: Addr15)
    ensures (r / 0x400) % 4 == value % 4
    ensures r % 0x400 == t % 0x400 && r / 0x1000 == t / 0x1000
  {
    var high, select, low := t / 0x1000, value % 4, t % 0x400;
    var r := high * 0x1000 + select * 0x400 + low;
    DivModOf(r, 0x400, high * 4 + select, low);
    DivModOf(r / 0x400, 4, high, select);
    DivModOf(r, 0x1000, high, select * 0x400 + low);
    r
  }

  /** First 0x2005 write: `(t & 0x7fe0) | (byte >> 3)`, the coarse X scroll goes to bits 0-4. */
  function TempAfterScrollX(t: Addr15, value: byte): (r: Addr15)
    ensures r % 0x20 == value / 8 && r / 0x20 == t / 0x20
  {
    (t / 0x20) * 0x20 + value / 8
  }

  /**
   * Second 0x2005 write: `(t & 0x0c1f) | ((byte & 7) << 12) | ((byte & 0xf8) << 2)`:
   * fine Y to bits 12-14, coarse Y to bits 5-9, coarse X and the nametable select kept.
   */
  function TempAfterScrollY(t: Addr15, value: byte): (r: Addr15)
    ensures r % 0x20 == t % 0x20
    ensures (r / 0x20) % 0x20 == value / 8
    ensures (r / 0x400) % 4 == (t / 0x400) % 4
    ensures r / 0x1000 == value % 8
  {
    var fineY, select, coarseY, coarseX := value % 8, (t / 0x400) % 4, value / 8, t % 0x20;
    var r := fineY * 0x1000 + select * 0x400 + coarseY * 0x20 + coarseX;
    DivModOf(r, 0x20, fineY * 0x80 + select * 0x20 + coarseY, coarseX);
    DivModOf(r / 0x20, 0x20, fineY * 4 + select, coarseY);
    DivModOf(r, 0x400, fineY * 4 + select, coarseY * 0x20 + coarseX);
    DivModOf(r / 0x400, 4, fineY, select);
    DivModOf(r, 0x1000, fineY, select * 0x400 + coarseY * 0x20 + coarseX);
    r
  }

  /** First 0x2006 write: `(t & 0x00ff) | ((byte & 0x3f) << 8)`. */
  function TempAfterAddressHigh(t: Addr15, value: byte): (r: Addr15)
    ensures r % 0x100 == t % 0x100 && r / 0x100 == value % 0x40
  {
    (value % 0x40) * 0x100 + t % 0x100
  }

  /** Second 0x2006 write: `(t & 0xff00) | byte`. */
  function TempAfterAddressLow(t: Addr15, value: byte): (r: Addr15)
    ensures r % 0x100 == value && r / 0x100 == t / 0x100
  {
    (t / 0x100) * 0x100 + value
  }

  /** Every register of the unit that is a number or a flag. */
  datatype PpuRegisters = PpuRegisters(
    ctrl: byte, mask: byte, status: byte, oamAddr: byte,
    vramAddress: Addr15, tempAddress: Addr15, fineX: Fine, writeToggle: bool,
    dataBuffer: byte, openBus: byte, scrollX: byte, scrollY: byte,
    cycle: Dot, scanline: Line, frame: nat, frameReady: bool)

  /** The registers apart from the status flags and the timing counters that `#tick` moves. */
  function Ports(r: PpuRegisters): PpuRegisters
  {
    r.(status := 0, cycle := 0, scanline := 0, frame := 0, frameReady := false)
  }

  /** `#updateSprite0Hit`: with background and sprites shown, the hit is raised at dot (x + 1, y + 1) of sprite 0. */
  function StatusAfterSprite0(status: byte, mask: byte, spriteY: byte, spriteX: byte, cycle: Dot, scanline: Line): (r: byte)
    ensures Sprite0Hit(status) ==> r == status
    ensures r != status ==> Sprite0Hit(r) && r == status + 0x40
  {
    if scanline < VISIBLE_LINES && 1 <= cycle <= 256
       && (mask / 8) % 4 == 3 && !Sprite0Hit(status)
       && scanline == spriteY + 1 && cycle == spriteX + 1
    then status + 0x40
    else status
  }

  /** One `#tick` on the registers, given sprite 0's Y and X bytes. */
  function AfterTick(r: PpuRegisters, spriteY: byte, spriteX: byte): PpuRegisters
  {
    var s1 := StatusAfterSprite0(r.status, r.mask, spriteY, spriteX, r.cycle, r.scanline);
    var s2 := if r.scanline == 241 && r.cycle == 1 && !InVblank(s1) then s1 + 0x80 else s1;
    var s3 := if r.scanline == 261 && r.cycle == 1 then s2 % 0x20 else s2;
    var ready := if r.scanline == 261 && r.cycle == 1 then false else r.frameReady;
    if r.cycle < 340 then r.(status := s3, cycle := r.cycle + 1, frameReady := ready)
    else if r.scanline < 261 then r.(status := s3, cycle := 0, scanline := r.scanline + 1, frameReady := ready)
    else r.(status := s3, cycle := 0, scanline := 0, frame := r.frame + 1, frameReady := true)
  }

  /** `#tick` advances one dot; the frame counter moves exactly when the dot wraps past scanline 261. */
  lemma TickAdvancesOneDot(r: PpuRegisters, spriteY: byte, spriteX: byte)
    ensures var n := AfterTick(r, spriteY, spriteX);
      && DotIndex(n.cycle, n.scanline) ==
           (if DotIndex(r.cycle, r.scanline) == FRAME_DOTS - 1 then 0 else DotIndex(r.cycle, r.scanline) + 1)
      && (n.frame == r.frame + 1 <==> DotIndex(r.cycle, r.scanline) == FRAME_DOTS - 1)
      && (n.frame != r.frame + 1 ==> n.frame == r.frame)
      && Ports(n) == Ports(r)
  {
  }

  /** At scanline 241 dot 1 vblank is raised; at scanline 261 dot 1 vblank, sprite-0 hit and overflow are cleared. */
  lemma TickFlags(r: PpuRegisters, spriteY: byte, spriteX: byte)
    ensures r.scanline == 241 && r.cycle == 1 ==> InVblank(AfterTick(r, spriteY, spriteX).status)
    ensures r.scanline == 261 && r.cycle == 1 ==>
      var s := AfterTick(r, spriteY, spriteX).status;
      !InVblank(s) && !Sprite0Hit(s) && !SpriteOverflow(s) && s % 0x20 == r.status % 0x20
  {
  }

  /** The register an address in 0x2000-0x3FFF selects: `0x2000 + (address & 7)`. */
  function PpuRegister(address: int): (r: int)
    ensures 0x2000 <= r < 0x2008
  {
    0x2000 + address % 8
  }

  /**
   * The registers after `writeRegister` of byte `b` to `register`. Every
   * write sets the open bus; 0x2005 and 0x2006 share one write toggle, and
   * the second 0x2006 write copies `tempAddress` into `vramAddress`.
   */
  function RegistersAfterWrite(r: PpuRegisters, register: int, b: byte): PpuRegisters
  {
    var s := r.(openBus := b);
    if register == 0x2000 then s.(ctrl := b, tempAddress := TempAfterCtrl(r.tempAddress, b))
    else if register == 0x2001 then s.(mask := b)
    else if register == 0x2003 then s.(oamAddr := b)
    else if register == 0x2004 then s.(oamAddr := (r.oamAddr + 1) % 0x100)
    else if register == 0x2005 && !r.writeToggle then
      s.(scrollX := b, fineX := b % 8, tempAddress := TempAfterScrollX(r.tempAddress, b), writeToggle := true)
    else if register == 0x2005 then
      s.(scrollY := b, tempAddress := TempAfterScrollY(r.tempAddress, b), writeToggle := false)
    else if register == 0x2006 && !r.writeToggle then
      s.(tempAddress := TempAfterAddressHigh(r.tempAddress, b), writeToggle := true)
    else if register == 0x2006 then
      var t := TempAfterAddressLow(r.tempAddress, b);
      s.(tempAddress := t, vramAddress := t, writeToggle := false)
    else if register == 0x2007 then s.(vramAddress := (r.vramAddress + VramIncrement(r.ctrl)) % 0x8000)
    else s
  }

  /** 0x2005 and 0x2006 flip the one shared toggle; no other register write touches it. */
  lemma WriteToggleAlternates(r: PpuRegisters, register: int, b: byte)
    ensures RegistersAfterWrite(r, register, b).writeToggle ==
      (if register == 0x2005 || register == 0x2006 then !r.writeToggle else r.writeToggle)
  {
  }

  /** Two 0x2006 writes, high byte then low byte, point `vramAddress` at `(high & 0x3f) << 8 | low`. */
  lemma AddressWritePair(r: PpuRegisters, high: byte, low: byte)
    requires !r.writeToggle
    ensures var n := RegistersAfterWrite(RegistersAfterWrite(r, 0x2006, high), 0x2006, low);
      n.vramAddress == (high % 0x40) * 0x100 + low && n.vramAddress == n.tempAddress && !n.writeToggle
  {
    var t := RegistersAfterWrite(r, 0x2006, high).tempAddress;
    assert t / 0x100 == high % 0x40;
  }

  /** Two 0x2005 writes set both scroll bytes, start from the left toggle state and leave it there. */
  lemma ScrollWritePair(r: PpuRegisters, x: byte, y: byte)
    requires !r.writeToggle
    ensures var n := RegistersAfterWrite(RegistersAfterWrite(r, 0x2005, x), 0x2005, y);
      n.scrollX == x && n.scrollY == y && n.fineX == x % 8 && !n.writeToggle
      && n.tempAddress % 0x20 == x / 8 && n.tempAddress / 0x1000 == y % 8 && (n.tempAddress / 0x20) % 0x20 == y / 8
  {
  }

  /** The nametable memory after a VRAM write at `mapped` (the write lands there only for 0x2000-0x3EFF). */
  function NameTablesAfterWrite(vram: seq<byte>, mirroring: Mirroring, mapped: int, value: byte): (r: seq<byte>)
    requires |vram| == VRAM_SIZE
    ensures |r| == VRAM_SIZE
  {
    if 0x2000 <= mapped < 0x3f00 then vram[NameTableIndex(mapped, mirroring) := value] else vram
  }

  /** The palette memory after a VRAM write at `mapped` (the write lands there only from 0x3F00 up). */
  function PaletteAfterWrite(palette: seq<byte>, mapped: int, value: byte): (r: seq<byte>)
    requires |palette| == PALETTE_SIZE
    ensures |r| == PALETTE_SIZE
  {
    if mapped >= 0x3f00 then palette[PaletteIndex(mapped) := value] else palette
  }

  /** A snapshot: the registers and the buffers (the frame buffer is not part of this model). */
  datatype PpuState = PpuState(
    registers: PpuRegisters,
    scanlineScrollX: Option<seq<int>>, scanlineScrollY: Option<seq<int>>, scanlineBaseNameTable: Option<seq<int>>,
    vram: seq<int>, paletteRam: seq<int>, oam: seq<int>)

  /**
   * The unit. Its sixteen number and flag fields (`ctrl`, `mask`, `status`,
   * ... `frameReady`) are held together in the record `regs`, so every
   * method states the new register file as one record update.
   */
  class PPU {
    const cartridge: Cartridge
    var regs: PpuRegisters
    const scanlineScrollX: array<word>
    const scanlineScrollY: array<word>
    const scanlineBaseNameTable: array<byte>
    const vram: array<byte>
    const paletteRam: array<byte>
    const oam: array<byte>

    ghost predicate Valid()
    {
      && cartridge.Valid()
      && scanlineScrollX.Length == VISIBLE_LINES && scanlineScrollY.Length == VISIBLE_LINES
      && scanlineBaseNameTable.Length == VISIBLE_LINES
      && vram.Length == VRAM_SIZE && paletteRam.Length == PALETTE_SIZE && oam.Length == OAM_SIZE
      && scanlineScrollX != scanlineScrollY
      && ByteArraysDistinct()
    }

    /** The unit's byte buffers are separate from each other and from the cartridge's. */
    ghost predicate ByteArraysDistinct()
    {
      var chr, prgRam := cartridge.memory.chr, cartridge.memory.prgRam;
      && scanlineBaseNameTable != vram && scanlineBaseNameTable != paletteRam && scanlineBaseNameTable != oam
      && scanlineBaseNameTable != chr && scanlineBaseNameTable != prgRam
      && vram != paletteRam && vram != oam && vram != chr && vram != prgRam
      && paletteRam != oam && paletteRam != chr && paletteRam != prgRam
      && oam != chr && oam != prgRam
    }

    constructor (cartridge: Cartridge)
      requires cartridge.Valid()
      ensures Valid() && this.cartridge == cartridge
      ensures regs == PpuRegisters(0, 0, 0, 0, 0, 0, 0, false, 0, 0, 0, 0, 0, 261, 0, false)
      ensures vram[..] == seq(VRAM_SIZE, _ => 0) && paletteRam[..] == seq(PALETTE_SIZE, _ => 0)
      ensures oam[..] == seq(OAM_SIZE, _ => 0)
      ensures fresh(scanlineScrollX) && fresh(scanlineScrollY) && fresh(scanlineBaseNameTable)
      ensures fresh(vram) && fresh(paletteRam) && fresh(oam)
    {
      this.cartridge := cartridge;
      regs := PpuRegisters(0, 0, 0, 0, 0, 0, 0, false, 0, 0, 0, 0, 0, 261, 0, false);
      scanlineScrollX := new word[VISIBLE_LINES](_ => 0);
      scanlineScrollY := new word[VISIBLE_LINES](_ => 0);
      scanlineBaseNameTable := new byte[VISIBLE_LINES](_ => 0);
      vram := new byte[VRAM_SIZE](_ => 0);
      paletteRam := new byte[PALETTE_SIZE](_ => 0);
      oam := new byte[OAM_SIZE](_ => 0);
    }

    /** `#readVRAM`: pattern tables from the cartridge, nametables from `vram`, palette entries from `paletteRam`. */
    function ReadVram(address: int): byte
      requires Valid()
      reads cartridge.memory.chr, ObjectOf(cartridge.mapper), vram, paletteRam
    {
      var mapped := address % 0x4000;
      if mapped < 0x2000 then cartridge.PpuRead(mapped)
      else if mapped < 0x3f00 then vram[NameTableIndex(mapped, cartridge.header.mirroring)]
      else paletteRam[PaletteIndex(mapped)]
    }

    /** `#readPalette`: a palette entry's low six bits. */
    function ReadPalette(index: int): (r: byte)
      requires Valid()
      reads paletteRam
      ensures r < 0x40
    {
      paletteRam[PaletteIndex(0x3f00 + index)] % 0x40
    }

    /** `#tick`: latch the scroll at dot 0 of a visible line, update the status flags, then advance one dot. */
    method Tick() returns (nmi: bool)
      requires Valid()
      modifies this, scanlineScrollX, scanlineScrollY, scanlineBaseNameTable
      ensures Valid()
      ensures regs == AfterTick(old(regs), oam[0], oam[3])
      ensures nmi <==> old(regs.scanline) == 241 && old(regs.cycle) == 1 && NmiEnabled(regs.ctrl)
      ensures old(regs.scanline) < VISIBLE_LINES && old(regs.cycle) == 0 ==>
        && scanlineScrollX[..] == old(scanlineScrollX[..])[old(regs.scanline) := regs.scrollX]
        && scanlineScrollY[..] == old(scanlineScrollY[..])[old(regs.scanline) := regs.scrollY]
        && scanlineBaseNameTable[..] == old(scanlineBaseNameTable[..])[old(regs.scanline) := regs.ctrl % 4]
      ensures !(old(regs.scanline) < VISIBLE_LINES && old(regs.cycle) == 0) ==>
        && scanlineScrollX[..] == old(scanlineScrollX[..]) && scanlineScrollY[..] == old(scanlineScrollY[..])
        && scanlineBaseNameTable[..] == old(scanlineBaseNameTable[..])
    {
      nmi := false;
      var r := regs;
      if r.scanline < VISIBLE_LINES && r.cycle == 0 {
        scanlineScrollX[r.scanline] := r.scrollX;
        scanlineScrollY[r.scanline] := r.scrollY;
        scanlineBaseNameTable[r.scanline] := r.ctrl % 4;
      }
      var status := StatusAfterSprite0(r.status, r.mask, oam[0], oam[3], r.cycle, r.scanline);
      var frameReady := r.frameReady;
      if r.scanline == 241 && r.cycle == 1 {
        if !InVblank(status) {
          status := status + 0x80;
        }
        if NmiEnabled(r.ctrl) {
          nmi := true;
        }
      }
      if r.scanline == 261 && r.cycle == 1 {
        status := status % 0x20;
        frameReady := false;
      }
      if r.cycle < 340 {
        regs := r.(status := status, frameReady := frameReady, cycle := r.cycle + 1);
      } else if r.scanline < 261 {
        regs := r.(status := status, frameReady := frameReady, cycle := 0, scanline := r.scanline + 1);
      } else {
        regs := r.(status := status, cycle := 0, scanline := 0, frame := r.frame + 1, frameReady := true);
      }
    }

    /**
     * `clock(cycles)`: `cycles` ticks. The dot position advances by
     * `cycles` mod one frame and `frame` by the number of frame ends passed,
     * so a step spanning several frames counts each of them.
     */
    method Clock(cycles: int) returns (nmi: bool)
      requires Valid()
      modifies this, scanlineScrollX, scanlineScrollY, scanlineBaseNameTable
      ensures Valid() && Ports(regs) == Ports(old(regs))
      ensures var dots := old(DotIndex(regs.cycle, regs.scanline)) + (if cycles > 0 then cycles else 0);
        DotIndex(regs.cycle, regs.scanline) == dots % FRAME_DOTS && regs.frame == old(regs.frame) + dots / FRAME_DOTS
      ensures nmi <==> NmiEnabled(regs.ctrl) && PassesVblankStart(old(DotIndex(regs.cycle, regs.scanline)), if cycles > 0 then cycles else 0)
    {
      nmi := false;
      var index := 0;
      ghost var start := DotIndex(regs.cycle, regs.scanline);
      while index < cycles
        invariant Valid() && 0 <= index && (cycles > 0 ==> index <= cycles) && (cycles <= 0 ==> index == 0)
        invariant Ports(regs) == Ports(old(regs))
        invariant DotIndex(regs.cycle, regs.scanline) == (start + index) % FRAME_DOTS
        invariant regs.frame == old(regs.frame) + (start + index) / FRAME_DOTS
        invariant nmi <==> NmiEnabled(regs.ctrl) && PassesVblankStart(start, index)
      {
        ghost var before := regs;
        DotIndexAtVblankStart(regs.cycle, regs.scanline);
        var requested := Tick();
        TickAdvancesOneDot(before, oam[0], oam[3]);
        DotStep(start + index);
        nmi := nmi || requested;
        index := index + 1;
      }
      if cycles <= 0 {
        assert index == 0 && start % FRAME_DOTS == start && start / FRAME_DOTS == 0;
      } else {
        assert index == cycles;
      }
    }

    /** The value `readRegister(address)` returns. */
    function PeekRegister(address: int): byte
      requires Valid()
      reads this, oam, cartridge.memory.chr, ObjectOf(cartridge.mapper), vram, paletteRam
    {
      var register := PpuRegister(address);
      if register == 0x2002 then regs.status / 0x20 * 0x20 + regs.openBus % 0x20
      else if register == 0x2004 then oam[regs.oamAddr]
      else if register == 0x2007 then
        var v := regs.vramAddress % 0x4000;
        if v >= 0x3f00 then ReadVram(v) else regs.dataBuffer
      else regs.openBus
    }

    /**
     * `readRegister`: 0x2002 gives status bits 5-7 over open-bus bits 0-4 and
     * clears vblank and the write toggle; 0x2004 gives the OAM byte; 0x2007
     * gives the read buffer below the palette and the palette entry itself
     * above, refills the buffer and advances the address. Every other
     * register gives the open bus.
     */
    method ReadRegister(address: int) returns (value: byte)
      requires Valid()
      modifies this
      ensures Valid() && value == old(PeekRegister(address))
      ensures regs.oamAddr == old(regs.oamAddr) && regs.ctrl == old(regs.ctrl) && regs.mask == old(regs.mask)
      ensures PpuRegister(address) == 0x2002 ==>
        && value == old(regs.status) / 0x20 * 0x20 + old(regs.openBus) % 0x20
        && regs == old(regs).(status := old(regs.status) % 0x80, writeToggle := false, openBus := value)
      ensures PpuRegister(address) == 0x2004 ==>
        value == oam[old(regs.oamAddr)] && regs == old(regs).(openBus := value)
      ensures PpuRegister(address) == 0x2007 ==>
        var v := old(regs.vramAddress) % 0x4000;
        && value == (if v >= 0x3f00 then ReadVram(v) else old(regs.dataBuffer))
        && regs == old(regs).(
             dataBuffer := if v >= 0x3f00 then ReadVram(v - 0x1000) else ReadVram(v),
             vramAddress := (old(regs.vramAddress) + VramIncrement(old(regs.ctrl))) % 0x8000,
             openBus := value)
      ensures PpuRegister(address) !in {0x2002, 0x2004, 0x2007} ==>
        value == old(regs.openBus) && regs == old(regs)
    {
      var register := PpuRegister(address);
      var r := regs;
      if register == 0x2002 {
        value := r.status / 0x20 * 0x20 + r.openBus % 0x20;
        regs := r.(status := r.status % 0x80, writeToggle := false, openBus := value);
        return;
      }
      if register == 0x2004 {
        value := oam[r.oamAddr];
        regs := r.(openBus := value);
        return;
      }
      if register == 0x2007 {
        var v := r.vramAddress % 0x4000;
        var buffer;
        if v >= 0x3f00 {
          value := ReadVram(v);
          buffer := ReadVram(v - 0x1000);
        } else {
          value := r.dataBuffer;
          buffer := ReadVram(v);
        }
        regs := r.(dataBuffer := buffer, vramAddress := (r.vramAddress + VramIncrement(r.ctrl)) % 0x8000, openBus := value);
        return;
      }
      value := r.openBus;
    }

    /** `#writeVRAM`: pattern tables go to the cartridge, nametables to `vram`, palette entries to `paletteRam`. */
    method WriteVram(address: int, value: byte)
      requires Valid()
      modifies vram, paletteRam, cartridge.memory.chr
      ensures Valid()
      ensures vram[..] == NameTablesAfterWrite(old(vram[..]), cartridge.header.mirroring, address % 0x4000, value)
      ensures paletteRam[..] == PaletteAfterWrite(old(paletteRam[..]), address % 0x4000, value)
      ensures address % 0x4000 >= 0x2000 || !cartridge.memory.hasChrRam ==>
        cartridge.memory.chr[..] == old(cartridge.memory.chr[..])
    {
      var mapped := address % 0x4000;
      if mapped < 0x2000 {
        cartridge.PpuWrite(mapped, value);
        return;
      }
      if mapped < 0x3f00 {
        vram[NameTableIndex(mapped, cartridge.header.mirroring)] := value;
        return;
      }
      paletteRam[PaletteIndex(mapped)] := value;
    }

    /**
     * `writeRegister`: every write sets the open bus. 0x2005 and 0x2006 share
     * one write toggle; the second 0x2006 write copies `tempAddress` into
     * `vramAddress`. Turning NMI on during vblank requests an NMI at once.
     */
    method WriteRegister(address: int, value: int) returns (nmi: bool)
      requires Valid()
      modifies this, oam, vram, paletteRam, cartridge.memory.chr
      ensures Valid()
      ensures regs == RegistersAfterWrite(old(regs), PpuRegister(address), value % 0x100)
      ensures nmi <==> PpuRegister(address) == 0x2000 && !NmiEnabled(old(regs.ctrl)) && NmiEnabled(value % 0x100) && InVblank(old(regs.status))
      ensures PpuRegister(address) == 0x2004 ==> oam[..] == old(oam[..])[old(regs.oamAddr) := value % 0x100]
      ensures PpuRegister(address) != 0x2004 ==> oam[..] == old(oam[..])
      ensures PpuRegister(address) == 0x2007 ==>
        && vram[..] == NameTablesAfterWrite(old(vram[..]), cartridge.header.mirroring, old(regs.vramAddress) % 0x4000, value % 0x100)
        && paletteRam[..] == PaletteAfterWrite(old(paletteRam[..]), old(regs.vramAddress) % 0x4000, value % 0x100)
        && (old(regs.vramAddress) % 0x4000 >= 0x2000 || !cartridge.memory.hasChrRam ==>
              cartridge.memory.chr[..] == old(cartridge.memory.chr[..]))
      ensures PpuRegister(address) != 0x2007 ==>
        vram[..] == old(vram[..]) && paletteRam[..] == old(paletteRam[..])
        && cartridge.memory.chr[..] == old(cartridge.memory.chr[..])
    {
      var register := PpuRegister(address);
      var b := value % 0x100;
      var r := regs.(openBus := b);
      nmi := false;
      if register == 0x2000 {
        var nmiBefore := NmiEnabled(r.ctrl);
        regs := r.(ctrl := b, tempAddress := TempAfterCtrl(r.tempAddress, b));
        if !nmiBefore && NmiEnabled(b) && InVblank(r.status) {
          nmi := true;
        }
      } else if register == 0x2001 {
        regs := r.(mask := b);
      } else if register == 0x2003 {
        regs := r.(oamAddr := b);
      } else if register == 0x2004 {
        oam[r.oamAddr] := b;
        regs := r.(oamAddr := (r.oamAddr + 1) % 0x100);
      } else if register == 0x2005 {
        if !r.writeToggle {
          regs := r.(scrollX := b, fineX := b % 8, tempAddress := TempAfterScrollX(r.tempAddress, b), writeToggle := true);
        } else {
          regs := r.(scrollY := b, tempAddress := TempAfterScrollY(r.tempAddress, b), writeToggle := false);
        }
      } else if register == 0x2006 {
        if !r.writeToggle {
          regs := r.(tempAddress := TempAfterAddressHigh(r.tempAddress, b), writeToggle := true);
        } else {
          var t := TempAfterAddressLow(r.tempAddress, b);
          regs := r.(tempAddress := t, vramAddress := t, writeToggle := false);
        }
      } else if register == 0x2007 {
        WriteVram(r.vramAddress % 0x4000, b);
        regs := r.(vramAddress := (r.vramAddress + VramIncrement(r.ctrl)) % 0x8000);
      } else {
        regs := r;
      }
    }

    /** `writeOamDma(byte)`: one OAM byte at `oamAddr`, which then advances mod 256. */
    method WriteOamDma(value: int)
      requires Valid()
      modifies this, oam
      ensures Valid()
      ensures oam[..] == old(oam[..])[old(regs.oamAddr) := value % 0x100]
      ensures regs == old(regs).(oamAddr := (old(regs.oamAddr) + 1) % 0x100)
    {
      oam[regs.oamAddr] := value % 0x100;
      regs := regs.(oamAddr := (regs.oamAddr + 1) % 0x100);
    }

    method SaveState() returns (state: PpuState)
      requires Valid()
      ensures state == PpuState(regs, Some(scanlineScrollX[..]), Some(scanlineScrollY[..]),
                                Some(scanlineBaseNameTable[..]), vram[..], paletteRam[..], oam[..])
    {
      state := PpuState(regs, Some(scanlineScrollX[..]), Some(scanlineScrollY[..]),
                        Some(scanlineBaseNameTable[..]), vram[..], paletteRam[..], oam[..]);
    }

    /**
     * `loadState`: the registers, then each scanline buffer the snapshot
     * holds, then VRAM, palette and OAM, each by `set`, which throws a
     * RangeError on a buffer longer than the target; the dot position and
     * frame counter are restored last.
     */
    method LoadState(state: PpuState) returns (outcome: Outcome)
      requires Valid()
      modifies this, scanlineScrollX, scanlineScrollY, scanlineBaseNameTable, vram, paletteRam, oam
      ensures Valid() && Ports(regs) == Ports(state.registers) && regs.status == state.registers.status
      ensures outcome == Done <==> LoadFits(state)
      ensures outcome.Fail? ==> outcome.error.RangeError?
      ensures outcome == Done ==> regs == state.registers
      ensures outcome.Fail? ==> regs == state.registers.(
        cycle := old(regs.cycle), scanline := old(regs.scanline), frame := old(regs.frame), frameReady := old(regs.frameReady))
      ensures outcome == Done ==>
        && scanlineScrollX[..] == LoadedLines16(old(scanlineScrollX[..]), state.scanlineScrollX)
        && scanlineScrollY[..] == LoadedLines16(old(scanlineScrollY[..]), state.scanlineScrollY)
        && scanlineBaseNameTable[..] == LoadedLines(old(scanlineBaseNameTable[..]), state.scanlineBaseNameTable)
        && vram[..] == SetContents(old(vram[..]), state.vram)
        && paletteRam[..] == SetContents(old(paletteRam[..]), state.paletteRam)
        && oam[..] == SetContents(old(oam[..]), state.oam)
    {
      var r := state.registers;
      regs := r.(cycle := regs.cycle, scanline := regs.scanline, frame := regs.frame, frameReady := regs.frameReady);
      outcome := LoadScanlineBuffers(state);
      if outcome.Fail? {
        return;
      }
      outcome := LoadMemories(state);
      if outcome.Fail? {
        return;
      }
      regs := r;
    }

    /** The three `if (state.scanline…) set` steps of `loadState`. */
    method LoadScanlineBuffers(state: PpuState) returns (outcome: Outcome)
      requires Valid()
      modifies scanlineScrollX, scanlineScrollY, scanlineBaseNameTable
      ensures outcome == Done <==> LinesFit(state)
      ensures outcome.Fail? ==> outcome.error.RangeError?
      ensures outcome == Done ==>
        && scanlineScrollX[..] == LoadedLines16(old(scanlineScrollX[..]), state.scanlineScrollX)
        && scanlineScrollY[..] == LoadedLines16(old(scanlineScrollY[..]), state.scanlineScrollY)
        && scanlineBaseNameTable[..] == LoadedLines(old(scanlineBaseNameTable[..]), state.scanlineBaseNameTable)
    {
      outcome := Done;
      if state.scanlineScrollX.Some? {
        outcome := Set16(scanlineScrollX, state.scanlineScrollX.value);
        if outcome.Fail? {
          return;
        }
      }
      if state.scanlineScrollY.Some? {
        outcome := Set16(scanlineScrollY, state.scanlineScrollY.value);
        if outcome.Fail? {
          return;
        }
      }
      if state.scanlineBaseNameTable.Some? {
        outcome := Set(scanlineBaseNameTable, state.scanlineBaseNameTable.value);
      }
    }

    /** The VRAM, palette and OAM `set` steps of `loadState`. */
    method LoadMemories(state: PpuState) returns (outcome: Outcome)
      requires Valid()
      modifies vram, paletteRam, oam
      ensures outcome == Done <==> |state.vram| <= VRAM_SIZE && |state.paletteRam| <= PALETTE_SIZE && |state.oam| <= OAM_SIZE
      ensures outcome.Fail? ==> outcome.error.RangeError?
      ensures outcome == Done ==>
        && vram[..] == SetContents(old(vram[..]), state.vram)
        && paletteRam[..] == SetContents(old(paletteRam[..]), state.paletteRam)
        && oam[..] == SetContents(old(oam[..]), state.oam)
    {
      outcome := Set(vram, state.vram);
      if outcome.Fail? {
        return;
      }
      outcome := Set(paletteRam, state.paletteRam);
      if outcome.Fail? {
        return;
      }
      outcome := Set(oam, state.oam);
    }
  }

  /** A scanline buffer after `if (saved) buffer.set(saved)`. */
  function LoadedLines16(before: seq<word>, saved: Option<seq<int>>): seq<word>
    requires saved.Some? ==> |saved.value| <= |before|
  {
    if saved.Some? then SetContents16(before, saved.value) else before
  }

  function LoadedLines(before: seq<byte>, saved: Option<seq<int>>): seq<byte>
    requires saved.Some? ==> |saved.value| <= |before|
  {
    if saved.Some? then SetContents(before, saved.value) else before
  }

  predicate LinesFit(state: PpuState)
  {
    && (state.scanlineScrollX.Some? ==> |state.scanlineScrollX.value| <= VISIBLE_LINES)
    && (state.scanlineScrollY.Some? ==> |state.scanlineScrollY.value| <= VISIBLE_LINES)
    && (state.scanlineBaseNameTable.Some? ==> |state.scanlineBaseNameTable.value| <= VISIBLE_LINES)
  }

  /** Every buffer of the snapshot fits its target, so `loadState` runs to the end. */
  predicate LoadFits(state: PpuState)
  {
    LinesFit(state) && |state.vram| <= VRAM_SIZE && |state.paletteRam| <= PALETTE_SIZE && |state.oam| <= OAM_SIZE
  }

  /** The frame position of scanline 241 dot 1, where vblank begins. */
  const VBLANK_START_DOT: nat := 241 * DOTS_PER_LINE + 1

  /** Whether the `n` dots from frame position `start` on include the start of vblank. */
  predicate PassesVblankStart(start: nat, n: nat)
  {
    n > 0 && (PassesVblankStart(start, n - 1) || (start + n - 1) % FRAME_DOTS == VBLANK_START_DOT)
  }

  lemma DotIndexAtVblankStart(cycle: Dot, scanline: Line)
    ensures DotIndex(cycle, scanline) == VBLANK_START_DOT <==> scanline == 241 && cycle == 1
  {
  }

  /** The dots passed include the start of vblank exactly when one of them sits at its frame position. */
  lemma {:induction false} PassesVblankStartIff(start: nat, n: nat)
    ensures PassesVblankStart(start, n) <==> exists k :: start <= k < start + n && k % FRAME_DOTS == VBLANK_START_DOT
  {
    if n > 0 {
      PassesVblankStartIff(start, n - 1);
      if PassesVblankStart(start, n) && !PassesVblankStart(start, n - 1) {
        var k := start + n - 1;
        assert start <= k < start + n && k % FRAME_DOTS == VBLANK_START_DOT;
      }
    }
  }

  /** Clocking a whole frame or more always passes the start of vblank, so an enabled NMI fires at least once per frame. */
  lemma FramePassesVblankStart(start: nat, n: nat)
    requires n >= FRAME_DOTS
    ensures PassesVblankStart(start, n)
  {
    var q := start / FRAME_DOTS;
    var k := if start % FRAME_DOTS <= VBLANK_START_DOT then q * FRAME_DOTS + VBLANK_START_DOT
             else (q + 1) * FRAME_DOTS + VBLANK_START_DOT;
    assert start == q * FRAME_DOTS + start % FRAME_DOTS;
    ModOfMultiplePlus(if start % FRAME_DOTS <= VBLANK_START_DOT then q else q + 1, VBLANK_START_DOT);
    assert start <= k < start + n;
    PassesVblankStartIff(start, n);
  }

  lemma ModOfMultiplePlus(q: nat, c: nat)
    requires c < FRAME_DOTS
    ensures (q * FRAME_DOTS + c) % FRAME_DOTS == c
  {
  }

  /** One more dot moves the frame position by one, wrapping at the frame end. */
  lemma DotStep(dots: nat)
    ensures (dots + 1) % FRAME_DOTS == (if dots % FRAME_DOTS == FRAME_DOTS - 1 then 0 else dots % FRAME_DOTS + 1)
    ensures (dots + 1) / FRAME_DOTS == dots / FRAME_DOTS + (if dots % FRAME_DOTS == FRAME_DOTS - 1 then 1 else 0)
  {
  }

  /** Vertical mirroring shares 0x2000/0x2800 and 0x2400/0x2C00. */
  lemma VerticalMirroring(offset: nat)
    requires offset < 0x800
    ensures NameTableIndex(0x2000 + offset, Vertical) == NameTableIndex(0x2800 + offset, Vertical)
  {
    NameTableAt(offset, Vertical);
    NameTableAt(offset + 0x800, Vertical);
    assert (offset + 0x800) / 0x400 == offset / 0x400 + 2;
    assert (offset + 0x800) % 0x400 == offset % 0x400;
  }

  /** Horizontal mirroring shares 0x2000/0x2400 and 0x2800/0x2C00. */
  lemma HorizontalMirroring(offset: nat)
    requires offset < 0x1000 && offset % 0x800 < 0x400
    ensures NameTableIndex(0x2000 + offset, Horizontal) == NameTableIndex(0x2400 + offset, Horizontal)
  {
    NameTableAt(offset, Horizontal);
    NameTableAt(offset + 0x400, Horizontal);
    assert offset / 0x400 == 0 || offset / 0x400 == 2;
    assert (offset + 0x400) / 0x400 == offset / 0x400 + 1;
    assert (offset + 0x400) % 0x400 == offset % 0x400;
  }

  /** Four-screen keeps the four tables apart, and 0x3000-0x3EFF mirrors 0x2000-0x2EFF in every mode. */
  lemma FourScreenAndUpperMirror(offset: nat, mirroring: Mirroring)
    requires offset < 0x1000
    ensures NameTableIndex(0x2000 + offset, FourScreen) == offset
    ensures NameTableIndex(0x2000 + offset, mirroring) == NameTableIndex(0x3000 + offset, mirroring)
  {
    NameTableAt(offset, FourScreen);
    assert (0x3000 + offset - 0x2000) % 0x1000 == offset;
  }

  /** The palette repeats every 32 bytes, and 0x3F10/14/18/1C alias 0x3F00/04/08/0C. */
  lemma PaletteMirrors(address: int, k: nat)
    requires k < 4
    ensures PaletteIndex(address) == PaletteIndex(address + 0x20)
    ensures PaletteIndex(0x3f10 + 4 * k) == PaletteIndex(0x3f00 + 4 * k)
  {
  }

  /** Two 0x2006 writes, high then low, load `vramAddress` with `(high & 0x3f) << 8 | low`. */
  method WriteAddressTwice(ppu: PPU, high: byte, low: byte) returns (address: Addr15)
    requires ppu.Valid() && !ppu.regs.writeToggle
    modifies ppu, ppu.oam, ppu.vram, ppu.paletteRam, ppu.cartridge.memory.chr
    ensures address == (high % 0x40) * 0x100 + low && !ppu.regs.writeToggle
  {
    ghost var before := ppu.regs;
    assert PpuRegister(0x2006) == 0x2006;
    var nmi := ppu.WriteRegister(0x2006, high);
    ghost var middle := ppu.regs;
    assert middle == RegistersAfterWrite(before, 0x2006, high);
    nmi := ppu.WriteRegister(0x2006, low);
    assert ppu.regs == RegistersAfterWrite(middle, 0x2006, low);
    AddressWritePair(before, high, low);
    address := ppu.regs.vramAddress;
  }

  /** Reading 0x2002 between writes resets the shared toggle, so the next 0x2006 write is a high byte again. */
  method StatusReadResetsToggle(ppu: PPU, high: byte) returns (toggle: bool)
    requires ppu.Valid() && !ppu.regs.writeToggle
    modifies ppu, ppu.oam, ppu.vram, ppu.paletteRam, ppu.cartridge.memory.chr
    ensures !toggle && ppu.regs.tempAddress % 0x100 == old(ppu.regs.tempAddress) % 0x100
  {
    var nmi := ppu.WriteRegister(0x2006, high);
    var status := ppu.ReadRegister(0x2002);
    toggle := ppu.regs.writeToggle;
  }

  /** Below the palette, a 0x2007 read returns what the previous read fetched. */
  method BufferedRead(ppu: PPU) returns (first: byte, second: byte)
    requires ppu.Valid() && ppu.regs.vramAddress % 0x4000 < 0x3f00
    requires (ppu.regs.vramAddress + VramIncrement(ppu.regs.ctrl)) % 0x8000 % 0x4000 < 0x3f00
    modifies ppu
    ensures first == old(ppu.regs.dataBuffer)
    ensures second == ppu.ReadVram(old(ppu.regs.vramAddress) % 0x4000)
  {
    assert PpuRegister(0x2007) == 0x2007;
    first := ppu.ReadRegister(0x2007);
    ghost var fetched := ppu.regs.dataBuffer;
    assert fetched == ppu.ReadVram(old(ppu.regs.vramAddress) % 0x4000);
    second := ppu.ReadRegister(0x2007);
  }
}
