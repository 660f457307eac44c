/** src/core/snes/cartridge.mjs: the SNES cartridge, resolving bank:address to ROM and battery RAM. */
module SnesCartridge {
  import opened Bits
  import opened Wrappers
  import opened Smc
  import opened TypedArray

  /** `normalizeOffset`: 0 for an empty memory, the offset wrapped into it otherwise. */
  function NormalizeOffset(offset: nat, length: nat): (r: nat)
    ensures length == 0 ==> r == 0
    ensures length > 0 ==> r < length && r == offset % length
  {
    if length == 0 then 0 else offset % length
  }

  /** LoROM: 32 KiB per bank in the upper half, whole banks for bank class 0x40-0x7D. */
  function LoROMOffset(bank: byte, address: word, romLength: nat): (r: Option<nat>)
    ensures r.Some? <==> address >= 0x8000 || 0x40 <= bank % 0x80 <= 0x7d
    ensures r.Some? ==> r.value == NormalizeOffset((bank % 0x80) * 0x8000 + address % 0x8000, romLength)
  {
    var bankClass := bank % 0x80;
    var isHighArea := address >= 0x8000;
    var isFullBankROM := bankClass >= 0x40 && bankClass <= 0x7d;
    if !isHighArea && !isFullBankROM then None
    else Some(NormalizeOffset(bankClass * 0x8000 + address % 0x8000, romLength))
  }

  /** HiROM: 64 KiB per bank; unmapped only past the ROM end below 0x8000 in bank class 0x00-0x3F. */
  function HiROMOffset(bank: byte, address: word, romLength: nat): (r: Option<nat>)
    ensures r.None? <==> (bank % 0x80) * 0x10000 + address >= romLength && bank % 0x80 < 0x40 && address < 0x8000
    ensures r.Some? ==> r.value == NormalizeOffset((bank % 0x80) * 0x10000 + address, romLength)
  {
    var bankClass := bank % 0x80;
    var offset := bankClass * 0x10000 + address;
    if offset >= romLength && bankClass < 0x40 && address < 0x8000 then None
    else Some(NormalizeOffset(offset, romLength))
  }

  function ROMOffset(layout: Layout, bank: byte, address: word, romLength: nat): Option<nat>
  {
    match layout
    case LoROM => LoROMOffset(bank, address, romLength)
    case HiROM => HiROMOffset(bank, address, romLength)
  }

  /**
   * Battery RAM, checked before ROM. LoROM: banks 0x70-0x7D and 0xF0-0xFF
   * below 0x8000, 32 KiB per bank; HiROM: bank class 0x20-0x3F at
   * 0x6000-0x7FFF, 8 KiB per bank. Nothing maps when there is no SRAM.
   */
  function SRAMOffset(layout: Layout, bank: byte, address: word, sramLength: nat): (r: Option<nat>)
    ensures sramLength == 0 || address >= 0x8000 ==> r.None?
    ensures r.Some? ==> r.value < sramLength
    ensures layout == LoROM ==>
      (r.Some? <==> sramLength > 0 && address < 0x8000 && (0x70 <= bank % 0x80 <= 0x7d || bank >= 0xf0))
    ensures layout == HiROM ==>
      (r.Some? <==> sramLength > 0 && 0x6000 <= address <= 0x7fff && 0x20 <= bank % 0x80 <= 0x3f)
  {
    if sramLength == 0 then None
    else if address >= 0x8000 then None
    else
      var bankClass := bank % 0x80;
      match layout
      case LoROM =>
        var isSRAMBank := (bankClass >= 0x70 && bankClass <= 0x7d) || (bank >= 0xf0 && bank <= 0xff);
        if !isSRAMBank then None
        else Some(NormalizeOffset((bankClass % 0x10) * 0x8000 + address, sramLength))
      case HiROM =>
        var isSRAMBank := bankClass >= 0x20 && bankClass <= 0x3f;
        if !isSRAMBank || address < 0x6000 || address > 0x7fff then None
        else Some(NormalizeOffset((bankClass - 0x20) * 0x2000 + (address - 0x6000), sramLength))
  }

  /**
   * `read(bank, address)` on `bank & 0xff` and `address & 0xffff`: SRAM
   * when it maps there, else ROM, else the unmapped value 0xFF.
   */
  function CartridgeByte(layout: Layout, rom: seq<byte>, sram: seq<byte>, bank: int, address: int): (r: byte)
    requires |rom| > 0
    ensures var b, a := bank % 0x100, address % 0x10000;
      SRAMOffset(layout, b, a, |sram|).Some? ==> r == sram[SRAMOffset(layout, b, a, |sram|).value]
    ensures var b, a := bank % 0x100, address % 0x10000;
      SRAMOffset(layout, b, a, |sram|).None? && ROMOffset(layout, b, a, |rom|).None? ==> r == 0xff
    ensures var b, a := bank % 0x100, address % 0x10000;
      SRAMOffset(layout, b, a, |sram|).None? && ROMOffset(layout, b, a, |rom|).Some? ==>
      ROMOffset(layout, b, a, |rom|).value < |rom| && r == rom[ROMOffset(layout, b, a, |rom|).value]
  {
    var mappedBank := bank % 0x100;
    var mappedAddress := address % 0x10000;
    var sramOffset := SRAMOffset(layout, mappedBank, mappedAddress, |sram|);
    if sramOffset.Some? then sram[sramOffset.value]
    else
      var romOffset := ROMOffset(layout, mappedBank, mappedAddress, |rom|);
      if romOffset.None? then 0xff else rom[romOffset.value]
  }

  /** `write(bank, address, value)`: only SRAM can change; a write anywhere else is dropped. */
  function SramAfterWrite(layout: Layout, sram: seq<byte>, bank: int, address: int, value: int): (r: seq<byte>)
    ensures var offset := SRAMOffset(layout, bank % 0x100, address % 0x10000, |sram|);
      offset.Some? ==> r == sram[offset.value := value % 0x100]
    ensures SRAMOffset(layout, bank % 0x100, address % 0x10000, |sram|).None? ==> r == sram
  {
    var offset := SRAMOffset(layout, bank % 0x100, address % 0x10000, |sram|);
    if offset.Some? then sram[offset.value := value % 0x100] else sram
  }

  /** The battery RAM snapshot; `state?.sram` may be missing. */
  datatype SnesCartridgeState = SnesCartridgeState(sram: Option<seq<int>>)

  class SNESCartridge {
    const header: Metadata
    const rom: seq<byte>
    const sram: array<byte>

    predicate Valid()
    {
      |rom| > 0
    }

    constructor (header: Metadata, rom: seq<byte>, sram: array<byte>)
      requires |rom| > 0
      ensures Valid() && this.header == header && this.rom == rom && this.sram == sram
    {
      this.header := header;
      this.rom := rom;
      this.sram := sram;
    }

    /** `read(bank, address)`. */
    function Read(bank: int, address: int): byte
      requires Valid()
      reads sram
    {
      CartridgeByte(header.layout, rom, sram[..], bank, address)
    }

    /** `write`: only SRAM can change; a write anywhere else is dropped. The ROM is a constant. */
    method Write(bank: int, address: int, value: int)
      modifies sram
      ensures sram[..] == SramAfterWrite(header.layout, old(sram[..]), bank, address, value)
    {
      var mappedBank := bank % 0x100;
      var mappedAddress := address % 0x10000;
      var byte := value % 0x100;
      var sramOffset := SRAMOffset(header.layout, mappedBank, mappedAddress, sram.Length);
      if sramOffset.Some? {
        sram[sramOffset.value] := byte;
      }
    }

    method SaveState() returns (state: SnesCartridgeState)
      ensures state == SnesCartridgeState(Some(sram[..]))
    {
      state := SnesCartridgeState(Some(sram[..]));
    }

    /** `loadState`: a snapshot without SRAM, or with SRAM of another length, is ignored. */
    method LoadState(state: SnesCartridgeState)
      modifies sram
      ensures state.sram.Some? && |state.sram.value| == sram.Length ==>
        sram[..] == SetContents(old(sram[..]), state.sram.value)
      ensures !(state.sram.Some? && |state.sram.value| == sram.Length) ==> sram[..] == old(sram[..])
    {
      if state.sram.None? || |state.sram.value| != sram.Length {
        return;
      }
      var outcome := Set(sram, state.sram.value);
    }
  }

  /** `new SNESCartridge(romData)`: the image without its copier header, and `max(sramBytes, 0)` bytes of SRAM. */
  method NewSNESCartridge(romData: seq<byte>) returns (r: Result<SNESCartridge>)
    ensures SplitSMCRom(romData).Err? ==> r == Err(SplitSMCRom(romData).error)
    ensures SplitSMCRom(romData).Ok? ==> r.Ok?
    ensures r.Ok? ==> var c, split := r.value, SplitSMCRom(romData).value;
      && SplitSMCRom(romData).Ok?
      && fresh(c) && fresh(c.sram) && c.Valid()
      && c.header == split.header && c.rom == split.rom
      && c.sram[..] == seq(if split.header.sramBytes > 0 then split.header.sramBytes else 0, _ => 0)
  {
    var split := SplitSMCRom(romData);
    if split.Err? {
      return Err(split.error);
    }
    var header := split.value.header;
    assert |romData| >= MINIMUM_ROM_SIZE;
    assert header.copierHeaderBytes == CopierBytes(|romData|) by {
      CopierOfParsed(romData);
    }
    var sram := new byte[if header.sramBytes > 0 then header.sramBytes else 0](_ => 0);
    var c := new SNESCartridge(header, split.value.rom, sram);
    r := Ok(c);
  }

  /** LoROM banks `b` and `b | 0x80` resolve to the same ROM offset. */
  lemma LoROMBanksMirror(bank: byte, address: word, romLength: nat)
    requires bank < 0x80
    ensures LoROMOffset(bank, address, romLength) == LoROMOffset(bank + 0x80, address, romLength)
  {
  }

  /** In the upper half, LoROM banks `b` and `b | 0x80` read the same byte. */
  lemma LoROMUpperHalfMirror(c: SNESCartridge, bank: byte, address: word)
    requires c.Valid() && c.header.layout == LoROM && bank < 0x80 && address >= 0x8000
    ensures c.Read(bank, address) == c.Read(bank + 0x80, address)
  {
    assert (bank + 0x80) % 0x80 == bank % 0x80;
  }

  /** HiROM also mirrors: bank 0xC0 is bank 0x40 and every mapped offset wraps into the ROM. */
  lemma HiROMBanksMirror(bank: byte, address: word, romLength: nat)
    requires bank < 0x80
    ensures HiROMOffset(bank, address, romLength) == HiROMOffset(bank + 0x80, address, romLength)
  {
  }

  /** A byte written to SRAM reads back. */
  method WriteThenRead(c: SNESCartridge, bank: int, address: int, value: int) returns (read: byte)
    requires c.Valid() && SRAMOffset(c.header.layout, bank % 0x100, address % 0x10000, c.sram.Length).Some?
    modifies c.sram
    ensures read == value % 0x100
  {
    c.Write(bank, address, value);
    read := c.Read(bank, address);
  }

  /** Saved SRAM loads back unchanged. */
  method SaveLoadRoundTrip(c: SNESCartridge)
    modifies c.sram
    ensures c.sram[..] == old(c.sram[..])
  {
    var state := c.SaveState();
    SetOwnContents(state.sram.value);
    c.LoadState(state);
  }
}
