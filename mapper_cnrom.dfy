/** src/core/mappers/mapper-003-cnrom.mjs: mapper 3, fixed PRG and a switchable 8 KiB CHR bank. */
module MapperCnrom {
  import opened Bits
  import opened Wrappers
  import opened RomBuffer
  import opened MapperBase

  const CHR_BANK_SIZE: nat := 0x2000

  class MapperCNROM {
    const cartridge: CartridgeMemory
    var chrBank: nat

    constructor (cartridge: CartridgeMemory)
      ensures this.cartridge == cartridge && chrBank == 0
    {
      this.cartridge := cartridge;
      chrBank := 0;
    }

    /** As NROM: PRG RAM, then PRG ROM with a 16 KiB image mirrored at 0xC000. */
    function CpuRead(address: int): (r: byte)
      reads cartridge.prgRam
      ensures !InPrgRam(address) && address < 0x8000 ==> r == 0
      ensures InPrgRam(address) && cartridge.Valid() ==> r == cartridge.prgRam[address - 0x6000]
      ensures 0x8000 <= address <= 0xffff && |cartridge.prgRom| == 0x4000 ==>
        r == cartridge.prgRom[(address - 0x8000) % 0x4000]
      ensures 0x8000 <= address && address - 0x8000 < |cartridge.prgRom| != 0x4000 ==>
        r == cartridge.prgRom[address - 0x8000]
    {
      if InPrgRam(address) then ByteAt(cartridge.prgRam[..], address - 0x6000)
      else if address < 0x8000 then 0
      else if |cartridge.prgRom| == 0x4000 then ByteAt(cartridge.prgRom, (address - 0x8000) % 0x4000)
      else ByteAt(cartridge.prgRom, address - 0x8000)
    }

    /** PRG RAM below 0x8000; at or above 0x8000 a write selects CHR bank `value & 0x03`. */
    method CpuWrite(address: int, value: int)
      requires cartridge.Valid()
      modifies this, cartridge.prgRam
      ensures InPrgRam(address) ==>
        cartridge.prgRam[..] == PrgRamWrite(old(cartridge.prgRam[..]), address, value) && chrBank == old(chrBank)
      ensures !InPrgRam(address) ==> cartridge.prgRam[..] == old(cartridge.prgRam[..])
      ensures !InPrgRam(address) && address >= 0x8000 ==> chrBank == value % 4
      ensures !InPrgRam(address) && address < 0x8000 ==> chrBank == old(chrBank)
    {
      if 0x6000 <= address <= 0x7fff {
        cartridge.prgRam[address - 0x6000] := value % 0x100;
        return;
      }
      if address >= 0x8000 {
        chrBank := value % 4;
      }
    }

    /** `chr[chrBank * 0x2000 + address]` below 0x2000; a byte past the end of CHR reads as 0. */
    function PpuRead(address: int): (r: byte)
      reads this, cartridge.chr
      ensures address < 0x2000 && 0 <= chrBank * CHR_BANK_SIZE + address < cartridge.chr.Length ==>
        r == cartridge.chr[chrBank * CHR_BANK_SIZE + address]
      ensures address < 0x2000 && chrBank * CHR_BANK_SIZE + address >= cartridge.chr.Length ==> r == 0
      ensures address >= 0x2000 ==> r == 0
    {
      if address < 0x2000 then ByteAt(cartridge.chr[..], chrBank * CHR_BANK_SIZE + address) else 0
    }

    /** CHR RAM is written at the banked offset; the store is dropped when that offset is outside CHR. */
    method PpuWrite(address: int, value: int)
      requires cartridge.Valid()
      modifies cartridge.chr
      ensures address < 0x2000 && cartridge.hasChrRam ==>
        cartridge.chr[..] == StoreAt(old(cartridge.chr[..]), chrBank * CHR_BANK_SIZE + address, value)
      ensures !(address < 0x2000 && cartridge.hasChrRam) ==> cartridge.chr[..] == old(cartridge.chr[..])
    {
      if address < 0x2000 && cartridge.hasChrRam {
        var index := chrBank * CHR_BANK_SIZE + address;
        if 0 <= index < cartridge.chr.Length {
          cartridge.chr[index] := value % 0x100;
        }
      }
    }

    function SaveState(): (s: MapperState)
      reads this
      ensures s.chrBank == Some(chrBank) && s.bankSelect.None?
    {
      MapperState(None, Some(chrBank))
    }

    /** `chrBank = state.chrBank & 0xff`; a missing field masks to 0. */
    method LoadState(state: MapperState)
      modifies this
      ensures chrBank == (if state.chrBank.Some? then state.chrBank.value else 0) % 0x100
    {
      var saved := if state.chrBank.Some? then state.chrBank.value else 0;
      chrBank := saved % 0x100;
    }
  }

  /** With 8 KiB of CHR RAM only bank 0 is writable: any other bank drops the store. */
  method OtherBankWritesDropped(m: MapperCNROM, address: int, value: int)
    requires m.cartridge.Valid() && m.cartridge.hasChrRam && m.chrBank > 0 && 0 <= address < 0x2000
    modifies m.cartridge.chr
    ensures m.cartridge.chr[..] == old(m.cartridge.chr[..])
  {
    m.PpuWrite(address, value);
  }

  /** Selecting a bank then reading the pattern table reads that bank of the CHR image. */
  method SelectThenRead(m: MapperCNROM, value: int, address: int) returns (read: byte)
    requires m.cartridge.Valid() && 0 <= address < 0x2000
    requires m.cartridge.chr.Length == 4 * CHR_BANK_SIZE
    modifies m, m.cartridge.prgRam
    ensures read == m.cartridge.chr[(value % 4) * CHR_BANK_SIZE + address]
  {
    m.CpuWrite(0x8000, value);
    read := m.PpuRead(address);
  }

  /** A saved bank loads back. */
  method SaveLoadRoundTrip(m: MapperCNROM)
    requires m.chrBank < 0x100
    modifies m
    ensures m.chrBank == old(m.chrBank)
  {
    var saved := m.SaveState();
    m.LoadState(saved);
  }
}
