/**
 * src/core/mappers/mapper-base.mjs: the default mapper, and the parts of
 * the cartridge every mapper reaches through `this.cartridge`.
 */
module MapperBase {
  import opened Bits
  import opened Wrappers
  import opened RomBuffer
  import INes

  const CHR_RAM_SIZE: nat := 0x2000

  /** A mapper snapshot; a field the mapper does not save is absent. */
  datatype MapperState = MapperState(bankSelect: Option<int>, chrBank: Option<int>)

  const EMPTY_STATE: MapperState := MapperState(None, None)

  /** `prgRom`, `chr`, `prgRam` and `hasChrRam` of the cartridge. PRG ROM is never written. */
  class CartridgeMemory {
    const prgRom: seq<byte>
    const chr: array<byte>
    const prgRam: array<byte>
    const hasChrRam: bool

    ghost predicate Valid()
    {
      && chr != prgRam
      && prgRam.Length >= INes.PRG_RAM_BANK_SIZE
      && (hasChrRam ==> chr.Length == CHR_RAM_SIZE)
    }

    constructor (prgRom: seq<byte>, chr: array<byte>, prgRam: array<byte>, hasChrRam: bool)
      ensures this.prgRom == prgRom && this.chr == chr && this.prgRam == prgRam && this.hasChrRam == hasChrRam
    {
      this.prgRom := prgRom;
      this.chr := chr;
      this.prgRam := prgRam;
      this.hasChrRam := hasChrRam;
    }
  }

  /** The PRG RAM window shared by every mapper: 0x6000-0x7FFF. */
  predicate InPrgRam(address: int)
  {
    0x6000 <= address <= 0x7fff
  }

  /** `prgRam[address - 0x6000] = value & 0xff` on the RAM contents. */
  function PrgRamWrite(ram: seq<byte>, address: int, value: int): (r: seq<byte>)
    requires InPrgRam(address) && |ram| >= INes.PRG_RAM_BANK_SIZE
    ensures |r| == |ram| && r[address - 0x6000] == value % 0x100
    ensures forall i :: 0 <= i < |ram| && i != address - 0x6000 ==> r[i] == ram[i]
  {
    ram[address - 0x6000 := value % 0x100]
  }

  /** A typed-array store: an index outside the array is ignored. */
  function StoreAt(bytes: seq<byte>, index: int, value: int): (r: seq<byte>)
    ensures |r| == |bytes|
    ensures 0 <= index < |bytes| ==> r[index] == value % 0x100
    ensures forall i :: 0 <= i < |bytes| && i != index ==> r[i] == bytes[i]
  {
    if 0 <= index < |bytes| then bytes[index := value % 0x100] else bytes
  }

  /** The base mapper: nothing is mapped and nothing is stored. */
  class MapperBase {
    const cartridge: CartridgeMemory

    constructor (cartridge: CartridgeMemory)
      ensures this.cartridge == cartridge
    {
      this.cartridge := cartridge;
    }

    function CpuRead(address: int): (r: byte)
      ensures r == 0
    {
      0
    }

    method CpuWrite(address: int, value: int)
    {
    }

    function PpuRead(address: int): (r: byte)
      ensures r == 0
    {
      0
    }

    method PpuWrite(address: int, value: int)
    {
    }

    function SaveState(): (s: MapperState)
      ensures s.bankSelect.None? && s.chrBank.None?
    {
      EMPTY_STATE
    }

    method LoadState(state: MapperState)
    {
    }
  }
}
