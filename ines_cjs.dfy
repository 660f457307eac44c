/**
 * `parseINESHeader` of src/core/ines.js, the CommonJS variant: the same
 * checks as src/core/ines.mjs, its own messages, a `mapper` field, the
 * format name "NES 2.0" and no PRG RAM fields.
 */
module INesCjs {
  import opened Bits
  import opened Wrappers
  import INes

  const PRG_BANK_SIZE: int := 16 * 1024
  const CHR_BANK_SIZE: int := 8 * 1024

  datatype Format = INES | NES_2_0

  datatype Header = Header(
    format: Format,
    mapper: int,
    mirroring: INes.Mirroring,
    hasBatteryRam: bool,
    hasTrainer: bool,
    prgRomBanks: int,
    chrRomBanks: int,
    prgRomBytes: int,
    chrRomBytes: int,
    prgRomOffset: int,
    chrRomOffset: int)

  function ParseINESHeader(rom: seq<byte>): (r: Result<Header>)
    ensures |rom| < INes.HEADER_SIZE <==> r == Err(RangeError("ROM is too small to contain an iNES header."))
    ensures |rom| >= INes.HEADER_SIZE && rom[..4] != INes.NES_MAGIC ==> r == Err(Error("Invalid iNES header magic."))
    ensures r.Ok? ==> var h := r.value;
      && h.mapper == INes.MapperNumber(rom[6], rom[7])
      && h.prgRomOffset == INes.HEADER_SIZE + (if h.hasTrainer then INes.TRAINER_SIZE else 0)
      && h.chrRomOffset == h.prgRomOffset + h.prgRomBytes
      && h.chrRomOffset + h.chrRomBytes <= |rom|
  {
    if |rom| < INes.HEADER_SIZE then
      Err(RangeError("ROM is too small to contain an iNES header."))
    else if !INes.HasMagic(rom) then
      Err(Error("Invalid iNES header magic."))
    else
      var prgRomBanks := rom[4];
      var chrRomBanks := rom[5];
      var flags6 := rom[6];
      var flags7 := rom[7];
      var hasTrainer := flags6 / 4 % 2 == 1;
      var trainerBytes := if hasTrainer then INes.TRAINER_SIZE else 0;
      var format := if flags7 / 4 % 4 == 2 then NES_2_0 else INES;
      var prgRomBytes := prgRomBanks * PRG_BANK_SIZE;
      var chrRomBytes := chrRomBanks * CHR_BANK_SIZE;
      var prgRomOffset := INes.HEADER_SIZE + trainerBytes;
      var chrRomOffset := prgRomOffset + prgRomBytes;
      if |rom| < chrRomOffset + chrRomBytes then
        Err(RangeError("ROM size is smaller than the size declared in iNES header."))
      else
        Ok(Header(format, INes.MapperNumber(flags6, flags7), INes.MirroringOf(flags6),
                  flags6 / 2 % 2 == 1, hasTrainer, prgRomBanks, chrRomBanks,
                  prgRomBytes, chrRomBytes, prgRomOffset, chrRomOffset))
  }

  /**
   * Both parsers accept and refuse the same inputs with the same kind of
   * error, and agree on every field they share; the format names differ only
   * in spelling.
   */
  lemma AgreesWithModuleParser(rom: seq<byte>)
    ensures ParseINESHeader(rom).Ok? <==> INes.ParseINESHeader(rom).Ok?
    ensures ParseINESHeader(rom).Err? ==>
      ParseINESHeader(rom).error.RangeError? == INes.ParseINESHeader(rom).error.RangeError?
    ensures ParseINESHeader(rom).Ok? ==>
      var h := ParseINESHeader(rom).value;
      var m := INes.ParseINESHeader(rom).value;
      && h.mapper == m.mapperId && h.mirroring == m.mirroring
      && h.hasTrainer == m.hasTrainer && h.hasBatteryRam == m.hasBatteryRam
      && h.prgRomBytes == m.prgRomBytes && h.chrRomBytes == m.chrRomBytes
      && h.prgRomOffset == m.romDataOffset && h.chrRomOffset == m.chrDataOffset
      && (h.format == NES_2_0 <==> m.format == INes.NES2)
  {
  }
}
