/** src/core/snes/smc.mjs: locating, scoring and parsing the SNES internal header. */
module Smc {
  import opened Bits
  import opened Wrappers
  import JsString
  import RomBuffer

  const SNES_HEADER_SIZE: int := 0x50
  const SNES_TITLE_LENGTH: int := 21
  const MINIMUM_ROM_SIZE: int := 0x8000
  const COPIER_HEADER_SIZE: int := 512

  datatype Layout = LoROM | HiROM

  datatype Candidate = Candidate(offset: int, layout: Layout)

  /** LoROM is listed first, which decides ties. */
  const HEADER_CANDIDATES: seq<Candidate> := [Candidate(0x7fc0, LoROM), Candidate(0xffc0, HiROM)]

  function RegionName(code: byte): string
  {
    match code
    case 0x00 => "Japan"
    case 0x01 => "USA/Canada"
    case 0x02 => "Europe"
    case 0x03 => "Sweden"
    case 0x04 => "Finland"
    case 0x05 => "Denmark"
    case 0x06 => "France"
    case 0x07 => "Netherlands"
    case 0x08 => "Spain"
    case 0x09 => "Germany/Austria/Switzerland"
    case 0x0a => "Italy"
    case 0x0b => "Hong Kong/China"
    case 0x0c => "Indonesia"
    case 0x0d => "South Korea"
    case _ => "Unknown"
  }

  /** `(romLength & 0x3ff) === 0x200`. */
  predicate HasCopierHeader(romLength: nat)
  {
    romLength % 1024 == 512
  }

  predicate IsPrintableAscii(code: int)
  {
    0x20 <= code <= 0x7e
  }

  /** A little-endian 16-bit field, `rom[i] | (rom[i + 1] << 8)`. */
  function Word(rom: seq<byte>, i: int): word
    requires 0 <= i && i + 1 < |rom|
  {
    rom[i] as int + rom[i + 1] as int * 256
  }

  /** JavaScript `1 << n`: the count is taken mod 32 and the result is a signed 32-bit integer. */
  function ShiftLeftOne(n: int): (r: int)
    ensures 0 <= n <= 30 ==> r == Pow2(n)
  {
    var s := n % 32;
    if s == 31 then -0x8000_0000 else Pow2(s)
  }

  /** A whole header fits inside the image. */
  predicate HeaderFits(rom: seq<byte>, headerOffset: int)
  {
    0 <= headerOffset && headerOffset + SNES_HEADER_SIZE <= |rom|
  }

  /** How many of the `n` first title bytes are printable ASCII or zero. */
  function PrintableCount(rom: seq<byte>, headerOffset: int, n: nat): (c: nat)
    requires 0 <= headerOffset && headerOffset + n <= |rom|
    ensures c <= n
  {
    if n == 0 then 0
    else
      var code := rom[headerOffset + n - 1];
      PrintableCount(rom, headerOffset, n - 1) + (if IsPrintableAscii(code) || code == 0 then 1 else 0)
  }

  /** 8 points when the checksum and its complement are bitwise complements. */
  function ChecksumPoints(rom: seq<byte>, headerOffset: int): int
    requires HeaderFits(rom, headerOffset)
  {
    if Xor(Word(rom, headerOffset + 0x1c), Word(rom, headerOffset + 0x1e), 16) == 0xffff then 8 else 0
  }

  /** 4 points for a reset vector in 0x8000..0xffff. */
  function ResetPoints(rom: seq<byte>, headerOffset: int): int
    requires HeaderFits(rom, headerOffset)
  {
    var resetVector := Word(rom, headerOffset + 0x3c);
    if 0x8000 <= resetVector <= 0xffff then 4 else 0
  }

  /** 3 points when bit 0 of the map mode is 0 for LoROM or 1 for HiROM. */
  function MapModePoints(rom: seq<byte>, headerOffset: int, layout: Layout): int
    requires HeaderFits(rom, headerOffset)
  {
    var mapMode := rom[headerOffset + 0x15];
    (if layout == LoROM && mapMode % 2 == 0 then 3 else 0)
    + (if layout == HiROM && mapMode % 2 == 1 then 3 else 0)
  }

  /**
   * Up to 4 points for a printable title. `Math.floor((count / 21) * 4)`
   * equals the integer quotient `4 * count / 21`: that quotient is a whole
   * number only for 0 and 21, where the floating-point value is exact.
   */
  function TitlePoints(rom: seq<byte>, headerOffset: int): int
    requires HeaderFits(rom, headerOffset)
  {
    4 * PrintableCount(rom, headerOffset, SNES_TITLE_LENGTH) / SNES_TITLE_LENGTH
  }

  /** The heuristic score of one candidate. */
  function Score(rom: seq<byte>, headerOffset: int, layout: Layout): int
    requires HeaderFits(rom, headerOffset)
  {
    ChecksumPoints(rom, headerOffset) + ResetPoints(rom, headerOffset)
    + MapModePoints(rom, headerOffset, layout) + TitlePoints(rom, headerOffset)
  }

  method ScoreCandidate(rom: seq<byte>, headerOffset: int, layout: Layout) returns (score: int)
    requires HeaderFits(rom, headerOffset)
    ensures score == Score(rom, headerOffset, layout)
  {
    var mapMode := rom[headerOffset + 0x15];
    var checksumComplement := rom[headerOffset + 0x1c] as int + rom[headerOffset + 0x1d] as int * 256;
    var checksum := rom[headerOffset + 0x1e] as int + rom[headerOffset + 0x1f] as int * 256;
    var resetVector := rom[headerOffset + 0x3c] as int + rom[headerOffset + 0x3d] as int * 256;

    score := 0;
    if Xor(checksumComplement, checksum, 16) == 0xffff {
      score := score + 8;
    }
    if 0x8000 <= resetVector <= 0xffff {
      score := score + 4;
    }
    if layout == LoROM && mapMode % 2 == 0 {
      score := score + 3;
    }
    if layout == HiROM && mapMode % 2 == 1 {
      score := score + 3;
    }

    var printableCount := 0;
    var index := 0;
    while index < SNES_TITLE_LENGTH
      invariant 0 <= index <= SNES_TITLE_LENGTH
      invariant printableCount == PrintableCount(rom, headerOffset, index)
    {
      var code := rom[headerOffset + index];
      if IsPrintableAscii(code) || code == 0 {
        printableCount := printableCount + 1;
      }
      index := index + 1;
    }
    score := score + 4 * printableCount / SNES_TITLE_LENGTH;
  }

  /**
   * The score is between 0 and 19. The checksum points are awarded exactly
   * when checksum and complement add up to 0xffff, and the title points are
   * 4 exactly when all 21 title bytes are printable or zero.
   */
  lemma ScoreBounds(rom: seq<byte>, headerOffset: int, layout: Layout)
    requires HeaderFits(rom, headerOffset)
    ensures 0 <= Score(rom, headerOffset, layout) <= 19
    ensures ChecksumPoints(rom, headerOffset) == 8 <==>
      Word(rom, headerOffset + 0x1c) + Word(rom, headerOffset + 0x1e) == 0xffff
    ensures TitlePoints(rom, headerOffset) == 4 <==>
      PrintableCount(rom, headerOffset, SNES_TITLE_LENGTH) == SNES_TITLE_LENGTH
  {
    Pow2Values();
    XorAllOnes(Word(rom, headerOffset + 0x1c), Word(rom, headerOffset + 0x1e), 16);
  }

  datatype Metadata = Metadata(
    layout: Layout,
    mapMode: byte,
    mapperId: byte,
    fastRom: bool,
    title: string,
    cartridgeType: byte,
    romSizeCode: byte,
    sramSizeCode: byte,
    romBytes: int,
    sramBytes: int,
    regionCode: byte,
    region: string,
    licenseeCode: byte,
    version: byte,
    checksum: word,
    checksumComplement: word,
    hasCopierHeader: bool,
    copierHeaderBytes: int,
    headerOffset: int,
    nativeResetVector: word,
    emulationResetVector: word)

  function ParseCandidate(rom: seq<byte>, headerOffset: int, layout: Layout, copierHeaderBytes: int): (m: Metadata)
    requires HeaderFits(rom, headerOffset)
    ensures m.headerOffset == headerOffset && m.layout == layout
    ensures m.hasCopierHeader <==> copierHeaderBytes > 0
    ensures m.romSizeCode <= 20 ==> m.romBytes == Pow2(m.romSizeCode + 10)
    ensures m.sramSizeCode == 0 ==> m.sramBytes == 0
    ensures 0 < m.sramSizeCode <= 20 ==> m.sramBytes == Pow2(m.sramSizeCode + 10)
  {
    var mapMode := rom[headerOffset + 0x15];
    var romSizeCode := rom[headerOffset + 0x17];
    var sramSizeCode := rom[headerOffset + 0x18];
    var regionCode := rom[headerOffset + 0x19];
    Metadata(
      layout,
      mapMode,
      mapMode,
      mapMode / 16 % 2 == 1,
      JsString.Trim(RomBuffer.AsciiField(rom, headerOffset, SNES_TITLE_LENGTH)),
      rom[headerOffset + 0x16],
      romSizeCode,
      sramSizeCode,
      ShiftLeftOne(romSizeCode as int + 10),
      if sramSizeCode == 0 then 0 else ShiftLeftOne(sramSizeCode as int + 10),
      regionCode,
      RegionName(regionCode),
      rom[headerOffset + 0x1a],
      rom[headerOffset + 0x1b],
      Word(rom, headerOffset + 0x1e),
      Word(rom, headerOffset + 0x1c),
      copierHeaderBytes > 0,
      copierHeaderBytes,
      headerOffset,
      Word(rom, headerOffset + 0x3c),
      Word(rom, headerOffset + 0x4c))
  }

  datatype Scored = Scored(score: int, metadata: Metadata)

  function CopierBytes(romLength: nat): int
  {
    if HasCopierHeader(romLength) then COPIER_HEADER_SIZE else 0
  }

  /** The candidates whose header fits, scored and parsed, in list order. */
  function Viable(rom: seq<byte>, candidates: seq<Candidate>): (v: seq<Scored>)
    ensures |v| <= |candidates|
  {
    if |candidates| == 0 then []
    else
      var rest := Viable(rom, candidates[..|candidates| - 1]);
      var c := candidates[|candidates| - 1];
      var headerOffset := CopierBytes(|rom|) + c.offset;
      if HeaderFits(rom, headerOffset) then
        rest + [Scored(Score(rom, headerOffset, c.layout),
                       ParseCandidate(rom, headerOffset, c.layout, CopierBytes(|rom|)))]
      else rest
  }

  /** The first entry of highest score: what a stable descending sort puts first. */
  function Best(v: seq<Scored>): (b: Scored)
    requires |v| > 0
    ensures b in v
    ensures forall s :: s in v ==> s.score <= b.score
  {
    if |v| == 1 then v[0]
    else
      var b := Best(v[..|v| - 1]);
      assert forall s :: s in v ==> s in v[..|v| - 1] || s == v[|v| - 1];
      if v[|v| - 1].score > b.score then v[|v| - 1] else b
  }

  /** The header `parseSNESHeader` returns, or the error it throws. */
  function SNESHeader(rom: seq<byte>): (r: Result<Metadata>)
    ensures |rom| < MINIMUM_ROM_SIZE <==> r == Err(RangeError("ROM is too small for SNES header parsing."))
    ensures r.Ok? ==> HeaderFits(rom, r.value.headerOffset)
    ensures r.Ok? ==> Score(rom, r.value.headerOffset, r.value.layout) >= 7
  {
    if |rom| < MINIMUM_ROM_SIZE then
      Err(RangeError("ROM is too small for SNES header parsing."))
    else
      var parsed := Viable(rom, HEADER_CANDIDATES);
      if |parsed| == 0 then
        Err(Error("Unable to locate a valid SNES header."))
      else
        var best := Best(parsed);
        if best.score < 7 then
          Err(Error("Unable to validate SNES ROM header heuristics."))
        else
          ViableScores(rom, HEADER_CANDIDATES);
          Ok(best.metadata)
  }

  /**
   * `parseSNESHeader`: scores and parses each fitting candidate in list
   * order, then keeps the first of highest score, which is the head of the
   * stably sorted list.
   */
  method ParseSNESHeader(rom: seq<byte>) returns (r: Result<Metadata>)
    ensures r == SNESHeader(rom)
  {
    if |rom| < MINIMUM_ROM_SIZE {
      return Err(RangeError("ROM is too small for SNES header parsing."));
    }
    var parsedCandidates := CollectCandidates(rom);
    if |parsedCandidates| == 0 {
      return Err(Error("Unable to locate a valid SNES header."));
    }
    var best := FirstBest(parsedCandidates);
    if best.score < 7 {
      return Err(Error("Unable to validate SNES ROM header heuristics."));
    }
    return Ok(best.metadata);
  }

  /** The loop of `parseSNESHeader` that pushes every fitting candidate. */
  method CollectCandidates(rom: seq<byte>) returns (parsedCandidates: seq<Scored>)
    ensures parsedCandidates == Viable(rom, HEADER_CANDIDATES)
  {
    var copierHeaderBytes := CopierBytes(|rom|);
    var baseOffset := copierHeaderBytes;
    parsedCandidates := [];
    var i := 0;
    while i < |HEADER_CANDIDATES|
      invariant 0 <= i <= |HEADER_CANDIDATES|
      invariant parsedCandidates == Viable(rom, HEADER_CANDIDATES[..i])
    {
      assert HEADER_CANDIDATES[..i + 1][..i] == HEADER_CANDIDATES[..i];
      var candidate := HEADER_CANDIDATES[i];
      var headerOffset := baseOffset + candidate.offset;
      var headerEnd := headerOffset + SNES_HEADER_SIZE;
      if headerEnd > |rom| {
        i := i + 1;
        continue;
      }
      var score := ScoreCandidate(rom, headerOffset, candidate.layout);
      var metadata := ParseCandidate(rom, headerOffset, candidate.layout, copierHeaderBytes);
      parsedCandidates := parsedCandidates + [Scored(score, metadata)];
      i := i + 1;
    }
    assert HEADER_CANDIDATES[..i] == HEADER_CANDIDATES;
  }

  /** The head of the list after the stable descending sort by score. */
  method FirstBest(parsedCandidates: seq<Scored>) returns (best: Scored)
    requires |parsedCandidates| > 0
    ensures best == Best(parsedCandidates)
  {
    best := parsedCandidates[0];
    var j := 1;
    while j < |parsedCandidates|
      invariant 1 <= j <= |parsedCandidates|
      invariant best == Best(parsedCandidates[..j])
    {
      assert parsedCandidates[..j + 1][..j] == parsedCandidates[..j];
      if parsedCandidates[j].score > best.score {
        best := parsedCandidates[j];
      }
      j := j + 1;
    }
    assert parsedCandidates[..j] == parsedCandidates;
  }

  lemma {:induction false} ViableScores(rom: seq<byte>, candidates: seq<Candidate>)
    ensures forall s :: s in Viable(rom, candidates) ==>
      HeaderFits(rom, s.metadata.headerOffset) && s.score == Score(rom, s.metadata.headerOffset, s.metadata.layout)
    decreases |candidates|
  {
    if |candidates| > 0 {
      ViableScores(rom, candidates[..|candidates| - 1]);
    }
  }

  datatype SplitRom = SplitRom(header: Metadata, rom: seq<byte>)

  function SplitSMCRom(rom: seq<byte>): (r: Result<SplitRom>)
    ensures SNESHeader(rom).Err? ==> r == Err(SNESHeader(rom).error)
    ensures r.Ok? ==> SNESHeader(rom) == Ok(r.value.header)
    ensures r.Ok? ==>
      && 0 <= r.value.header.copierHeaderBytes
      && |rom| - |r.value.rom| == r.value.header.copierHeaderBytes
      && rom[r.value.header.copierHeaderBytes..] == r.value.rom
  {
    var parsed := SNESHeader(rom);
    if parsed.Err? then Err(parsed.error)
    else
      CopierOfParsed(rom);
      Ok(SplitRom(parsed.value, rom[parsed.value.copierHeaderBytes..]))
  }

  lemma {:induction false} ViableCopier(rom: seq<byte>, candidates: seq<Candidate>)
    ensures forall s :: s in Viable(rom, candidates) ==> s.metadata.copierHeaderBytes == CopierBytes(|rom|)
    decreases |candidates|
  {
    if |candidates| > 0 {
      ViableCopier(rom, candidates[..|candidates| - 1]);
    }
  }

  /** A parsed header records 512 copier bytes exactly when the length is 512 more than a multiple of 1024. */
  lemma CopierOfParsed(rom: seq<byte>)
    requires SNESHeader(rom).Ok?
    ensures SNESHeader(rom).value.copierHeaderBytes == CopierBytes(|rom|)
    ensures 0 <= CopierBytes(|rom|) <= |rom|
  {
    ViableCopier(rom, HEADER_CANDIDATES);
  }

  /** Where the LoROM and HiROM candidates sit once the copier header is skipped. */
  function LoOffset(rom: seq<byte>): int { CopierBytes(|rom|) + HEADER_CANDIDATES[0].offset }
  function HiOffset(rom: seq<byte>): int { CopierBytes(|rom|) + HEADER_CANDIDATES[1].offset }

  /** The scored entry of one fitting candidate. */
  function Entry(rom: seq<byte>, headerOffset: int, layout: Layout): Scored
    requires HeaderFits(rom, headerOffset)
  {
    Scored(Score(rom, headerOffset, layout), ParseCandidate(rom, headerOffset, layout, CopierBytes(|rom|)))
  }

  lemma ViableCandidates(rom: seq<byte>)
    ensures var lo, hi := LoOffset(rom), HiOffset(rom);
      Viable(rom, HEADER_CANDIDATES) ==
        (if HeaderFits(rom, lo) then [Entry(rom, lo, LoROM)] else [])
        + (if HeaderFits(rom, hi) then [Entry(rom, hi, HiROM)] else [])
  {
    assert HEADER_CANDIDATES[..1][..0] == [];
    assert HEADER_CANDIDATES[..2] == HEADER_CANDIDATES;
  }

  /** The image is refused for want of a header exactly when neither candidate fits. */
  lemma NoFittingCandidate(rom: seq<byte>)
    requires |rom| >= MINIMUM_ROM_SIZE
    ensures !HeaderFits(rom, LoOffset(rom)) && !HeaderFits(rom, HiOffset(rom)) <==>
      SNESHeader(rom) == Err(Error("Unable to locate a valid SNES header."))
  {
    ViableCandidates(rom);
  }

  /**
   * An accepted header is a fitting candidate at its copier-shifted offset,
   * and no other fitting candidate scores higher.
   */
  lemma ChosenCandidateIsBest(rom: seq<byte>)
    requires SNESHeader(rom).Ok?
    ensures var lo, hi, m := LoOffset(rom), HiOffset(rom), SNESHeader(rom).value;
      || (m.layout == LoROM && m.headerOffset == lo && HeaderFits(rom, lo))
      || (m.layout == HiROM && m.headerOffset == hi && HeaderFits(rom, hi))
    ensures var lo, hi, m := LoOffset(rom), HiOffset(rom), SNESHeader(rom).value;
      && (HeaderFits(rom, lo) ==> Score(rom, lo, LoROM) <= Score(rom, m.headerOffset, m.layout))
      && (HeaderFits(rom, hi) ==> Score(rom, hi, HiROM) <= Score(rom, m.headerOffset, m.layout))
  {
    ViableCandidates(rom);
  }

  /** Equal scores keep LoROM, the candidate listed first. */
  lemma TieKeepsLoROM(rom: seq<byte>)
    requires |rom| >= MINIMUM_ROM_SIZE
    requires HeaderFits(rom, LoOffset(rom)) && HeaderFits(rom, HiOffset(rom))
    requires Score(rom, LoOffset(rom), LoROM) == Score(rom, HiOffset(rom), HiROM) >= 7
    ensures SNESHeader(rom).Ok? && SNESHeader(rom).value.layout == LoROM
  {
    ViableCandidates(rom);
  }

  /** When every fitting candidate scores below 7 the heuristics refuse the image. */
  lemma LowScoresRefused(rom: seq<byte>)
    requires |rom| >= MINIMUM_ROM_SIZE
    requires HeaderFits(rom, LoOffset(rom)) || HeaderFits(rom, HiOffset(rom))
    requires HeaderFits(rom, LoOffset(rom)) ==> Score(rom, LoOffset(rom), LoROM) < 7
    requires HeaderFits(rom, HiOffset(rom)) ==> Score(rom, HiOffset(rom), HiROM) < 7
    ensures SNESHeader(rom) == Err(Error("Unable to validate SNES ROM header heuristics."))
  {
    ViableCandidates(rom);
  }

  /**
   * An image of exactly 32 KiB, the smallest size accepted, is always
   * refused: the 0x50-byte LoROM window at 0x7fc0 ends at 0x8010.
   */
  lemma SmallestImageHasNoHeader(rom: seq<byte>)
    requires |rom| == MINIMUM_ROM_SIZE
    ensures SNESHeader(rom) == Err(Error("Unable to locate a valid SNES header."))
  {
    NoFittingCandidate(rom);
  }
}
