/** `parseINESHeader` and `splitINESRom` of src/core/ines.mjs: the 16-byte iNES / NES 2.0 header. */
module INes {
  import opened Bits
  import opened Wrappers

  const HEADER_SIZE: int := 16
  const TRAINER_SIZE: int := 512
  const PRG_ROM_BANK_SIZE: int := 16 * 1024
  const CHR_ROM_BANK_SIZE: int := 8 * 1024
  const PRG_RAM_BANK_SIZE: int := 8 * 1024
  const NES_MAGIC: seq<byte> := [0x4e, 0x45, 0x53, 0x1a]

  datatype Mirroring = FourScreen | Vertical | Horizontal
  datatype Format = INES | NES2

  datatype Header = Header(
    format: Format,
    mapperId: int,
    mirroring: Mirroring,
    hasTrainer: bool,
    hasBatteryRam: bool,
    prgRomBanks: int,
    chrRomBanks: int,
    prgRamBanks: int,
    prgRomBytes: int,
    chrRomBytes: int,
    prgRamBytes: int,
    romDataOffset: int,
    chrDataOffset: int)

  /** The first four bytes compared one by one with "NES\x1A"; the caller has checked the length. */
  predicate HasMagic(rom: seq<byte>)
    requires |rom| >= 4
  {
    rom[0] == NES_MAGIC[0] && rom[1] == NES_MAGIC[1] && rom[2] == NES_MAGIC[2] && rom[3] == NES_MAGIC[3]
  }

  /** `((flags7 & 0xf0) | (flags6 >> 4)) & 0xff`. */
  function MapperNumber(flags6: byte, flags7: byte): (id: byte)
    ensures id / 16 == flags7 / 16 && id % 16 == flags6 / 16
  {
    flags7 / 16 * 16 + flags6 / 16
  }

  /** Four-screen (bit 3) wins over vertical (bit 0); otherwise horizontal. */
  function MirroringOf(flags6: byte): Mirroring
  {
    if flags6 / 8 % 2 == 1 then FourScreen
    else if flags6 % 2 == 1 then Vertical
    else Horizontal
  }

  lemma MirroringCases(flags6: byte)
    ensures MirroringOf(flags6) == FourScreen <==> Bit(flags6, 3)
    ensures MirroringOf(flags6) == Vertical <==> Bit(flags6, 0) && !Bit(flags6, 3)
    ensures MirroringOf(flags6) == Horizontal <==> !Bit(flags6, 0) && !Bit(flags6, 3)
  {
    assert Bit(flags6, 3) == Bit(flags6 / 8, 0) by {
      assert Bit(flags6, 3) == Bit(flags6 / 2, 2) == Bit(flags6 / 2 / 2, 1) == Bit(flags6 / 2 / 2 / 2, 0);
    }
  }

  /** `(flags7 & 0x0c) === 0x08`. */
  function FormatOf(flags7: byte): Format
  {
    if flags7 / 4 % 4 == 2 then NES2 else INES
  }

  function ParseINESHeader(rom: seq<byte>): (r: Result<Header>)
    ensures |rom| < HEADER_SIZE <==> r == Err(RangeError("ROM is too small for iNES header."))
    ensures |rom| >= HEADER_SIZE && rom[..4] != NES_MAGIC ==> r == Err(Error("Invalid iNES header magic."))
    ensures r.Ok? ==> |rom| >= HEADER_SIZE && rom[..4] == NES_MAGIC
    ensures r.Ok? ==> var h := r.value;
      && h.format == FormatOf(rom[7])
      && h.mapperId == MapperNumber(rom[6], rom[7])
      && h.mirroring == MirroringOf(rom[6])
      && h.hasTrainer == (rom[6] / 4 % 2 == 1)
      && h.hasBatteryRam == (rom[6] / 2 % 2 == 1)
      && h.prgRomBanks == rom[4] && h.chrRomBanks == rom[5]
      && h.prgRomBytes == rom[4] * PRG_ROM_BANK_SIZE
      && h.chrRomBytes == rom[5] * CHR_ROM_BANK_SIZE
      && h.prgRamBanks == (if rom[8] > 1 then rom[8] else 1)
      && h.prgRamBytes == h.prgRamBanks * PRG_RAM_BANK_SIZE
      && h.romDataOffset == HEADER_SIZE + (if h.hasTrainer then TRAINER_SIZE else 0)
      && h.chrDataOffset == h.romDataOffset + h.prgRomBytes
      && h.chrDataOffset + h.chrRomBytes <= |rom|
    ensures |rom| >= HEADER_SIZE && rom[..4] == NES_MAGIC && r.Err? ==>
      r == Err(RangeError("ROM size is smaller than header-declared content size."))
  {
    if |rom| < HEADER_SIZE then
      Err(RangeError("ROM is too small for iNES header."))
    else if !HasMagic(rom) then
      Err(Error("Invalid iNES header magic."))
    else
      var prgRomBanks := rom[4];
      var chrRomBanks := rom[5];
      var flags6 := rom[6];
      var flags7 := rom[7];
      var flags8 := rom[8];
      var hasTrainer := flags6 / 4 % 2 == 1;
      var hasBatteryRam := flags6 / 2 % 2 == 1;
      var trainerBytes := if hasTrainer then TRAINER_SIZE else 0;
      var prgRomBytes := prgRomBanks * PRG_ROM_BANK_SIZE;
      var chrRomBytes := chrRomBanks * CHR_ROM_BANK_SIZE;
      var prgRamBanks := if flags8 > 1 then flags8 else 1;
      var romDataOffset := HEADER_SIZE + trainerBytes;
      var chrDataOffset := romDataOffset + prgRomBytes;
      if |rom| < chrDataOffset + chrRomBytes then
        Err(RangeError("ROM size is smaller than header-declared content size."))
      else
        Ok(Header(FormatOf(flags7), MapperNumber(flags6, flags7), MirroringOf(flags6),
                  hasTrainer, hasBatteryRam, prgRomBanks, chrRomBanks, prgRamBanks,
                  prgRomBytes, chrRomBytes, prgRamBanks * PRG_RAM_BANK_SIZE,
                  romDataOffset, chrDataOffset))
  }

  /**
   * The header is accepted exactly when it is long enough, carries the magic
   * and the file holds every byte the header declares.
   */
  lemma ParseAccepts(rom: seq<byte>)
    requires |rom| >= HEADER_SIZE && rom[..4] == NES_MAGIC
    ensures ParseINESHeader(rom).Ok? <==>
      |rom| >= HEADER_SIZE + (if rom[6] / 4 % 2 == 1 then TRAINER_SIZE else 0)
                + rom[4] * PRG_ROM_BANK_SIZE + rom[5] * CHR_ROM_BANK_SIZE
  {
    assert HasMagic(rom) by {
      assert rom[..4][0] == rom[0] && rom[..4][1] == rom[1] && rom[..4][2] == rom[2] && rom[..4][3] == rom[3];
    }
  }

  datatype SplitRom = SplitRom(header: Header, prgRom: seq<byte>, chrRom: seq<byte>)

  function SplitINESRom(rom: seq<byte>): (r: Result<SplitRom>)
    ensures ParseINESHeader(rom).Err? ==> r == Err(ParseINESHeader(rom).error)
    ensures r.Ok? ==> ParseINESHeader(rom) == Ok(r.value.header)
    ensures r.Ok? ==> var s := r.value;
      && |s.prgRom| == s.header.prgRomBytes
      && |s.chrRom| == s.header.chrRomBytes
      && s.prgRom + s.chrRom == rom[s.header.romDataOffset .. s.header.chrDataOffset + s.header.chrRomBytes]
  {
    match ParseINESHeader(rom)
    case Err(e) => Err(e)
    case Ok(header) =>
      var prgRomEnd := header.romDataOffset + header.prgRomBytes;
      var chrRomEnd := prgRomEnd + header.chrRomBytes;
      Ok(SplitRom(header, rom[header.romDataOffset..prgRomEnd], rom[prgRomEnd..chrRomEnd]))
  }

  /** Sixteen zero bytes have no magic and are refused with that message. */
  lemma ZeroHeaderHasNoMagic()
    ensures ParseINESHeader(seq(16, _ => 0)) == Err(Error("Invalid iNES header magic."))
  {
    assert seq(16, _ => 0)[..4] != NES_MAGIC by {
      assert seq(16, _ => 0)[..4][0] == 0;
    }
  }
}
