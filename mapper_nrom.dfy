/** src/core/mappers/mapper-000-nrom.js: mapper 0, fixed PRG and CHR. */
module MapperNrom {
  import opened Bits
  import opened RomBuffer
  import opened MapperBase

  class MapperNROM {
    const cartridge: CartridgeMemory

    constructor (cartridge: CartridgeMemory)
      ensures this.cartridge == cartridge
    {
      this.cartridge := cartridge;
    }

    /**
     * PRG RAM at 0x6000-0x7FFF, nothing else below 0x8000, and PRG ROM
     * from 0x8000: a 16 KiB image is mirrored, any other is read linearly
     * with bytes past its end reading as 0.
     */
    function CpuRead(address: int): (r: byte)
      reads cartridge.prgRam
      ensures !InPrgRam(address) && address < 0x8000 ==> r == 0
      ensures InPrgRam(address) && cartridge.Valid() ==> r == cartridge.prgRam[address - 0x6000]
      ensures 0x8000 <= address <= 0xffff && |cartridge.prgRom| == 0x4000 ==>
        r == cartridge.prgRom[(address - 0x8000) % 0x4000]
      ensures 0x8000 <= address && address - 0x8000 < |cartridge.prgRom| != 0x4000 ==>
        r == cartridge.prgRom[address - 0x8000]
      ensures 0x8000 <= address && address - 0x8000 >= |cartridge.prgRom| != 0x4000 ==> r == 0
    {
      if InPrgRam(address) then ByteAt(cartridge.prgRam[..], address - 0x6000)
      else if address < 0x8000 then 0
      else if |cartridge.prgRom| == 0x4000 then ByteAt(cartridge.prgRom, (address - 0x8000) % 0x4000)
      else ByteAt(cartridge.prgRom, address - 0x8000)
    }

    /** Only PRG RAM is writable; writes to ROM addresses change nothing. */
    method CpuWrite(address: int, value: int)
      requires cartridge.Valid()
      modifies cartridge.prgRam
      ensures InPrgRam(address) ==> cartridge.prgRam[..] == PrgRamWrite(old(cartridge.prgRam[..]), address, value)
      ensures !InPrgRam(address) ==> cartridge.prgRam[..] == old(cartridge.prgRam[..])
    {
      if 0x6000 <= address <= 0x7fff {
        cartridge.prgRam[address - 0x6000] := value % 0x100;
      }
    }

    /** CHR below 0x2000, 0 above. */
    function PpuRead(address: int): (r: byte)
      reads cartridge.chr
      ensures 0 <= address < 0x2000 && address < cartridge.chr.Length ==> r == cartridge.chr[address]
      ensures address >= 0x2000 ==> r == 0
    {
      if address < 0x2000 then ByteAt(cartridge.chr[..], address) else 0
    }

    /** CHR changes only when it is CHR RAM and the address is below 0x2000. */
    method PpuWrite(address: int, value: int)
      requires cartridge.Valid()
      modifies cartridge.chr
      ensures address < 0x2000 && cartridge.hasChrRam ==>
        cartridge.chr[..] == StoreAt(old(cartridge.chr[..]), address, value)
      ensures !(address < 0x2000 && cartridge.hasChrRam) ==> cartridge.chr[..] == old(cartridge.chr[..])
    {
      if address < 0x2000 && cartridge.hasChrRam && 0 <= address {
        cartridge.chr[address] := value % 0x100;
      }
    }

    /** Inherited from the base mapper: NROM has no registers to save. */
    function SaveState(): (s: MapperState)
      ensures s.bankSelect.None? && s.chrBank.None?
    {
      EMPTY_STATE
    }

    method LoadState(state: MapperState)
    {
    }
  }

  /** A 16 KiB PRG ROM answers at 0xC000-0xFFFF with the bytes of 0x8000-0xBFFF. */
  lemma SixteenKiBMirrored(m: MapperNROM, address: int)
    requires |m.cartridge.prgRom| == 0x4000 && 0x8000 <= address < 0xc000
    ensures m.CpuRead(address + 0x4000) == m.CpuRead(address)
  {
    assert (address + 0x4000 - 0x8000) % 0x4000 == address - 0x8000;
  }

  /** A byte written to PRG RAM is read back (as a byte). */
  method WriteThenRead(m: MapperNROM, address: int, value: int) returns (read: byte)
    requires m.cartridge.Valid() && InPrgRam(address)
    modifies m.cartridge.prgRam
    ensures read == value % 0x100
  {
    m.CpuWrite(address, value);
    read := m.CpuRead(address);
  }
}
