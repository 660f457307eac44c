/** src/core/mappers/mapper-002-uxrom.mjs: mapper 2, a switchable 16 KiB PRG bank below a fixed last bank. */
module MapperUxrom {
  import opened Bits
  import opened Wrappers
  import opened RomBuffer
  import opened MapperBase

  const PRG_BANK_SIZE: nat := 0x4000

  class MapperUxROM {
    const cartridge: CartridgeMemory
    var bankSelect: nat

    constructor (cartridge: CartridgeMemory)
      ensures this.cartridge == cartridge && bankSelect == 0
    {
      this.cartridge := cartridge;
      bankSelect := 0;
    }

    /** `prgRom.length >>> 14`. */
    function TotalBanks(): nat
    {
      |cartridge.prgRom| / PRG_BANK_SIZE
    }

    /**
     * 0x8000-0xBFFF reads bank `bankSelect % totalBanks`, 0xC000-0xFFFF the
     * last bank. With no whole bank, `% 0` is NaN and the fixed bank is
     * -1, so both windows read as 0.
     */
    function CpuRead(address: int): (r: byte)
      reads this, cartridge.prgRam
      ensures !InPrgRam(address) && address < 0x8000 ==> r == 0
      ensures InPrgRam(address) && cartridge.Valid() ==> r == cartridge.prgRam[address - 0x6000]
      ensures 0x8000 <= address < 0xc000 && TotalBanks() > 0 ==>
        r == cartridge.prgRom[(bankSelect % TotalBanks()) * PRG_BANK_SIZE + (address - 0x8000)]
      ensures 0xc000 <= address <= 0xffff && TotalBanks() > 0 ==>
        r == cartridge.prgRom[(TotalBanks() - 1) * PRG_BANK_SIZE + (address - 0xc000)]
      ensures 0x8000 <= address <= 0xffff && TotalBanks() == 0 ==> r == 0
    {
      if InPrgRam(address) then ByteAt(cartridge.prgRam[..], address - 0x6000)
      else if address < 0x8000 then 0
      else
        var totalBanks := TotalBanks();
        var fixedBank := totalBanks - 1;
        if address < 0xc000 then
          if totalBanks == 0 then 0
          else ByteAt(cartridge.prgRom, (bankSelect % totalBanks) * PRG_BANK_SIZE + (address - 0x8000))
        else ByteAt(cartridge.prgRom, fixedBank * PRG_BANK_SIZE + (address - 0xc000))
    }

    /** PRG RAM below 0x8000; at or above 0x8000 a write selects bank `value & 0x0f`. */
    method CpuWrite(address: int, value: int)
      requires cartridge.Valid()
      modifies this, cartridge.prgRam
      ensures InPrgRam(address) ==>
        cartridge.prgRam[..] == PrgRamWrite(old(cartridge.prgRam[..]), address, value) && bankSelect == old(bankSelect)
      ensures !InPrgRam(address) ==> cartridge.prgRam[..] == old(cartridge.prgRam[..])
      ensures !InPrgRam(address) && address >= 0x8000 ==> bankSelect == value % 0x10
      ensures !InPrgRam(address) && address < 0x8000 ==> bankSelect == old(bankSelect)
    {
      if 0x6000 <= address <= 0x7fff {
        cartridge.prgRam[address - 0x6000] := value % 0x100;
        return;
      }
      if address >= 0x8000 {
        bankSelect := value % 0x10;
      }
    }

    function PpuRead(address: int): (r: byte)
      reads cartridge.chr
      ensures 0 <= address < 0x2000 && address < cartridge.chr.Length ==> r == cartridge.chr[address]
      ensures address >= 0x2000 ==> r == 0
    {
      if address < 0x2000 then ByteAt(cartridge.chr[..], address) else 0
    }

    method PpuWrite(address: int, value: int)
      requires cartridge.Valid()
      modifies cartridge.chr
      ensures address < 0x2000 && cartridge.hasChrRam ==>
        cartridge.chr[..] == StoreAt(old(cartridge.chr[..]), address, value)
      ensures !(address < 0x2000 && cartridge.hasChrRam) ==> cartridge.chr[..] == old(cartridge.chr[..])
    {
      if address < 0x2000 && cartridge.hasChrRam && 0 <= address {
        cartridge.chr[address] := value % 0x100;
      }
    }

    function SaveState(): (s: MapperState)
      reads this
      ensures s.bankSelect == Some(bankSelect) && s.chrBank.None?
    {
      MapperState(Some(bankSelect), None)
    }

    /** `bankSelect = state.bankSelect & 0xff`; a missing field is `undefined`, which masks to 0. */
    method LoadState(state: MapperState)
      modifies this
      ensures bankSelect == (if state.bankSelect.Some? then state.bankSelect.value else 0) % 0x100
    {
      var saved := if state.bankSelect.Some? then state.bankSelect.value else 0;
      bankSelect := saved % 0x100;
    }
  }

  /** The fixed window does not depend on the selected bank. */
  lemma FixedBankIgnoresSelect(m: MapperUxROM, address: int)
    requires 0xc000 <= address <= 0xffff && m.TotalBanks() > 0
    ensures m.CpuRead(address) == m.cartridge.prgRom[|m.cartridge.prgRom| / PRG_BANK_SIZE * PRG_BANK_SIZE - PRG_BANK_SIZE + (address - 0xc000)]
  {
  }

  /** On a ROM of whole banks, the two windows read inside the image. */
  lemma WindowsInsideImage(romBytes: nat, bankSelect: nat, address: nat)
    requires romBytes % PRG_BANK_SIZE == 0 && romBytes / PRG_BANK_SIZE > 0 && 0x8000 <= address <= 0xffff
    ensures address < 0xc000 ==> (bankSelect % (romBytes / PRG_BANK_SIZE)) * PRG_BANK_SIZE + (address - 0x8000) < romBytes
    ensures address >= 0xc000 ==> (romBytes / PRG_BANK_SIZE - 1) * PRG_BANK_SIZE + (address - 0xc000) < romBytes
  {
    var banks := romBytes / PRG_BANK_SIZE;
    assert romBytes == banks * PRG_BANK_SIZE;
    if address < 0xc000 {
      var b := bankSelect % banks;
      assert b <= banks - 1;
      assert b * PRG_BANK_SIZE <= (banks - 1) * PRG_BANK_SIZE;
    }
  }

  /** Writing a ROM address then reading the switchable window reads the bank `value & 0x0f`, wrapped to the image. */
  method SelectThenRead(m: MapperUxROM, value: int, address: int) returns (read: byte)
    requires m.cartridge.Valid() && 0x8000 <= address < 0xc000 && m.TotalBanks() > 0
    modifies m, m.cartridge.prgRam
    ensures read == m.cartridge.prgRom[(value % 0x10 % m.TotalBanks()) * PRG_BANK_SIZE + (address - 0x8000)]
  {
    m.CpuWrite(0x8000, value);
    read := m.CpuRead(address);
  }

  /** A saved bank loads back. */
  method SaveLoadRoundTrip(m: MapperUxROM)
    requires m.bankSelect < 0x100
    modifies m
    ensures m.bankSelect == old(m.bankSelect)
  {
    var saved := m.SaveState();
    m.LoadState(saved);
  }
}
