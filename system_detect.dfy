/** src/core/system-detect.mjs: telling an iNES image from a SNES image. */
module SystemDetect {
  import opened Bits
  import opened Wrappers
  import Systems
  import Smc

  const NES_MAGIC: seq<byte> := [0x4e, 0x45, 0x53, 0x1a]

  /** `hasINESMagic`: the byte-by-byte loop with its early returns. */
  method HasINESMagic(rom: seq<byte>) returns (found: bool)
    ensures found <==> |rom| >= 4 && rom[..4] == NES_MAGIC
  {
    if |rom| < |NES_MAGIC| {
      return false;
    }
    var index := 0;
    while index < |NES_MAGIC|
      invariant 0 <= index <= |NES_MAGIC|
      invariant rom[..index] == NES_MAGIC[..index]
    {
      if rom[index] != NES_MAGIC[index] {
        assert rom[..4][index] != NES_MAGIC[index];
        return false;
      }
      assert rom[..index + 1] == rom[..index] + [rom[index]];
      index := index + 1;
    }
    assert NES_MAGIC[..4] == NES_MAGIC;
    return true;
  }

  /** Whether `hasINESMagic` holds. */
  predicate IsINES(rom: seq<byte>)
  {
    |rom| >= 4 && rom[..4] == NES_MAGIC
  }

  /**
   * `detectNintendoSystem`: the magic decides 'nes' without consulting the
   * SNES parser; otherwise a header the SNES parser accepts decides 'snes';
   * any error it throws becomes one "Unsupported ROM format" error.
   */
  function DetectNintendoSystem(rom: seq<byte>): (r: Result<Systems.System>)
    ensures IsINES(rom) ==> r == Ok(Systems.NES)
    ensures !IsINES(rom) ==> (r == Ok(Systems.SNES) <==> Smc.SNESHeader(rom).Ok?)
    ensures r.Err? <==> !IsINES(rom) && Smc.SNESHeader(rom).Err?
    ensures r.Err? ==> r.error == Error("Unsupported ROM format. Expected iNES (.nes) or SNES (.smc/.sfc).")
  {
    if IsINES(rom) then Ok(Systems.NES)
    else if Smc.SNESHeader(rom).Ok? then Ok(Systems.SNES)
    else Err(Error("Unsupported ROM format. Expected iNES (.nes) or SNES (.smc/.sfc)."))
  }

  /** Every image shorter than 32 KiB without the iNES magic is unsupported. */
  lemma ShortNonINESUnsupported(rom: seq<byte>)
    requires !IsINES(rom) && |rom| < Smc.MINIMUM_ROM_SIZE
    ensures DetectNintendoSystem(rom).Err?
  {
  }
}
