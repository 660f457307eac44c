/** src/core/cartridge.mjs: the NES cartridge, its memories and the mapper chosen by id. */
module NesCartridge {
  import opened Bits
  import opened Wrappers
  import opened JsString
  import opened INes
  import opened TypedArray
  import opened MapperBase
  import opened MapperNrom
  import opened MapperUxrom
  import opened MapperCnrom

  datatype MapperKind = NROMKind | UxROMKind | CNROMKind

  /** `MAPPER_FACTORY[mapperId]`: ids 0, 2 and 3 are implemented. */
  function MapperFor(mapperId: int): (r: Option<MapperKind>)
    ensures r.Some? <==> mapperId == 0 || mapperId == 2 || mapperId == 3
    ensures mapperId == 0 ==> r == Some(NROMKind)
    ensures mapperId == 2 ==> r == Some(UxROMKind)
    ensures mapperId == 3 ==> r == Some(CNROMKind)
  {
    if mapperId == 0 then Some(NROMKind)
    else if mapperId == 2 then Some(UxROMKind)
    else if mapperId == 3 then Some(CNROMKind)
    else None
  }

  function UnsupportedMapper(mapperId: nat): JsError
  {
    Error("Mapper " + NatToString(mapperId) + " is not implemented yet.")
  }

  /** The mapper object a cartridge holds. */
  datatype MapperRef = NromMapper(nrom: MapperNROM) | UxromMapper(uxrom: MapperUxROM) | CnromMapper(cnrom: MapperCNROM)

  function KindOf(m: MapperRef): MapperKind
  {
    match m
    case NromMapper(_) => NROMKind
    case UxromMapper(_) => UxROMKind
    case CnromMapper(_) => CNROMKind
  }

  function CartridgeOf(m: MapperRef): CartridgeMemory
  {
    match m
    case NromMapper(x) => x.cartridge
    case UxromMapper(x) => x.cartridge
    case CnromMapper(x) => x.cartridge
  }

  function ObjectOf(m: MapperRef): object
  {
    match m
    case NromMapper(x) => x
    case UxromMapper(x) => x
    case CnromMapper(x) => x
  }

  /** The mapper's one register: none for NROM, `bankSelect` for UxROM, `chrBank` for CNROM. */
  function Register(m: MapperRef): nat
    reads ObjectOf(m)
  {
    match m
    case NromMapper(_) => 0
    case UxromMapper(x) => x.bankSelect
    case CnromMapper(x) => x.chrBank
  }

  /** The register after a CPU write of `value` at `address`: only a ROM-range write selects a bank. */
  function RegisterAfterCpuWrite(kind: MapperKind, register: nat, address: int, value: int): nat
  {
    if kind == NROMKind || InPrgRam(address) || address < 0x8000 then register
    else if kind == UxROMKind then value % 0x10
    else value % 4
  }

  /** JavaScript's `Math.max` on two lengths. */
  function Max(a: int, b: int): int
  {
    if a >= b then a else b
  }

  datatype CartridgeState = CartridgeState(prgRam: seq<int>, chr: Option<seq<int>>, mapper: MapperState)

  class Cartridge {
    const header: Header
    const memory: CartridgeMemory
    const mapper: MapperRef

    ghost predicate Valid()
    {
      memory.Valid() && CartridgeOf(mapper) == memory
    }

    constructor (header: Header, memory: CartridgeMemory, mapper: MapperRef)
      requires memory.Valid() && CartridgeOf(mapper) == memory
      ensures Valid() && this.header == header && this.memory == memory && this.mapper == mapper
    {
      this.header := header;
      this.memory := memory;
      this.mapper := mapper;
    }

    /** `mapper.cpuRead(address & 0xffff) & 0xff`. */
    function CpuRead(address: int): byte
      requires Valid()
      reads memory.prgRam, ObjectOf(mapper)
    {
      var a := address % 0x10000;
      match mapper
      case NromMapper(m) => m.CpuRead(a)
      case UxromMapper(m) => m.CpuRead(a)
      case CnromMapper(m) => m.CpuRead(a)
    }

    /** `mapper.ppuRead(address & 0x3fff) & 0xff`. */
    function PpuRead(address: int): byte
      requires Valid()
      reads memory.chr, ObjectOf(mapper)
    {
      var a := address % 0x4000;
      match mapper
      case NromMapper(m) => m.PpuRead(a)
      case UxromMapper(m) => m.PpuRead(a)
      case CnromMapper(m) => m.PpuRead(a)
    }

    /** `mapper.cpuWrite(address & 0xffff, value & 0xff)`. */
    method CpuWrite(address: int, value: int)
      requires Valid()
      modifies memory.prgRam, ObjectOf(mapper)
      ensures Valid()
      ensures InPrgRam(address % 0x10000) ==>
        memory.prgRam[..] == PrgRamWrite(old(memory.prgRam[..]), address % 0x10000, value)
      ensures !InPrgRam(address % 0x10000) ==> memory.prgRam[..] == old(memory.prgRam[..])
      ensures Register(mapper) == RegisterAfterCpuWrite(KindOf(mapper), old(Register(mapper)), address % 0x10000, value % 0x100)
    {
      var a := address % 0x10000;
      var v := value % 0x100;
      match mapper
      case NromMapper(m) => m.CpuWrite(a, v);
      case UxromMapper(m) => m.CpuWrite(a, v);
      case CnromMapper(m) => m.CpuWrite(a, v);
    }

    /** `mapper.ppuWrite(address & 0x3fff, value & 0xff)`: only CHR RAM ever changes. */
    method PpuWrite(address: int, value: int)
      requires Valid()
      modifies memory.chr
      ensures Valid()
      ensures !memory.hasChrRam ==> memory.chr[..] == old(memory.chr[..])
      ensures memory.hasChrRam && address % 0x4000 < 0x2000 ==>
        memory.chr[..] == StoreAt(old(memory.chr[..]),
                                  (if mapper.CnromMapper? then mapper.cnrom.chrBank * CHR_BANK_SIZE else 0) + address % 0x4000,
                                  value)
      ensures address % 0x4000 >= 0x2000 ==> memory.chr[..] == old(memory.chr[..])
    {
      var a := address % 0x4000;
      var v := value % 0x100;
      match mapper
      case NromMapper(m) => m.PpuWrite(a, v);
      case UxromMapper(m) => m.PpuWrite(a, v);
      case CnromMapper(m) => m.PpuWrite(a, v);
    }

    /** PRG RAM, CHR only when it is RAM, and the mapper's register. */
    method SaveState() returns (state: CartridgeState)
      requires Valid()
      ensures state.prgRam == memory.prgRam[..]
      ensures state.chr == (if memory.hasChrRam then Some(memory.chr[..]) else None)
      ensures state.mapper == MapperStateOf(mapper)
    {
      var chr := if memory.hasChrRam then Some(memory.chr[..]) else None;
      state := CartridgeState(memory.prgRam[..], chr, MapperStateOf(mapper));
    }

    /**
     * `prgRam.set(state.prgRam)`, then `chr.set(state.chr)` when CHR is RAM
     * and the snapshot has it, then the mapper's `loadState`. A snapshot
     * array longer than its target throws a RangeError, leaving whatever
     * was restored before it.
     */
    method LoadState(state: CartridgeState) returns (outcome: Outcome)
      requires Valid()
      modifies memory.prgRam, memory.chr, ObjectOf(mapper)
      ensures Valid()
      ensures |state.prgRam| > memory.prgRam.Length ==>
        && outcome.Fail? && outcome.error.RangeError?
        && memory.prgRam[..] == old(memory.prgRam[..]) && memory.chr[..] == old(memory.chr[..])
        && Register(mapper) == old(Register(mapper))
      ensures |state.prgRam| <= memory.prgRam.Length ==>
        memory.prgRam[..] == SetContents(old(memory.prgRam[..]), state.prgRam)
      ensures |state.prgRam| <= memory.prgRam.Length && !(memory.hasChrRam && state.chr.Some?) ==>
        memory.chr[..] == old(memory.chr[..])
      ensures var restoresChr := memory.hasChrRam && state.chr.Some?;
        |state.prgRam| <= memory.prgRam.Length && restoresChr && |state.chr.value| > memory.chr.Length ==>
        && outcome.Fail? && outcome.error.RangeError?
        && memory.chr[..] == old(memory.chr[..]) && Register(mapper) == old(Register(mapper))
      ensures var restoresChr := memory.hasChrRam && state.chr.Some?;
        |state.prgRam| <= memory.prgRam.Length && restoresChr && |state.chr.value| <= memory.chr.Length ==>
        memory.chr[..] == SetContents(old(memory.chr[..]), state.chr.value)
      ensures outcome == Done <==>
        |state.prgRam| <= memory.prgRam.Length
        && (memory.hasChrRam && state.chr.Some? ==> |state.chr.value| <= memory.chr.Length)
      ensures outcome == Done ==> Register(mapper) == RegisterAfterLoad(KindOf(mapper), state.mapper)
    {
      outcome := Set(memory.prgRam, state.prgRam);
      if outcome.Fail? {
        return;
      }
      if memory.hasChrRam && state.chr.Some? {
        outcome := Set(memory.chr, state.chr.value);
        if outcome.Fail? {
          return;
        }
      }
      match mapper
      case NromMapper(m) => m.LoadState(state.mapper);
      case UxromMapper(m) => m.LoadState(state.mapper);
      case CnromMapper(m) => m.LoadState(state.mapper);
    }
  }

  function MapperStateOf(m: MapperRef): (s: MapperState)
    reads ObjectOf(m)
  {
    match m
    case NromMapper(x) => x.SaveState()
    case UxromMapper(x) => x.SaveState()
    case CnromMapper(x) => x.SaveState()
  }

  /** The register a mapper's `loadState` leaves: the saved field masked to 8 bits, 0 when absent. */
  function RegisterAfterLoad(kind: MapperKind, state: MapperState): nat
  {
    match kind
    case NROMKind => 0
    case UxROMKind => (if state.bankSelect.Some? then state.bankSelect.value else 0) % 0x100
    case CNROMKind => (if state.chrBank.Some? then state.chrBank.value else 0) % 0x100
  }

  /**
   * `new Cartridge(romData)`: split the image, allocate CHR RAM when there
   * is no CHR ROM and at least 8 KiB of PRG RAM, then build the mapper the
   * header names; an unknown mapper id throws.
   */
  /** The cartridge memory of a parsed image: CHR ROM, or 8 KiB of CHR RAM when there is none, and zeroed PRG RAM. */
  method NewMemory(split: SplitRom) returns (memory: CartridgeMemory)
    ensures fresh(memory) && fresh(memory.chr) && fresh(memory.prgRam) && memory.Valid()
    ensures memory.prgRom == split.prgRom && memory.hasChrRam == (|split.chrRom| == 0)
    ensures memory.chr[..] == (if |split.chrRom| == 0 then seq(CHR_RAM_SIZE, _ => 0) else split.chrRom)
    ensures memory.prgRam[..] == seq(Max(split.header.prgRamBytes, PRG_RAM_BANK_SIZE), _ => 0)
  {
    var chrRom := split.chrRom;
    var hasChrRam := |chrRom| == 0;
    var chr: array<byte>;
    if hasChrRam {
      chr := new byte[CHR_RAM_SIZE](_ => 0);
    } else {
      chr := new byte[|chrRom|](i requires 0 <= i < |chrRom| => chrRom[i]);
    }
    var prgRam := new byte[Max(split.header.prgRamBytes, PRG_RAM_BANK_SIZE)](_ => 0);
    memory := new CartridgeMemory(split.prgRom, chr, prgRam, hasChrRam);
  }

  /** A fresh mapper of the given kind over `memory`, its register at 0. */
  method NewMapper(kind: MapperKind, memory: CartridgeMemory) returns (mapper: MapperRef)
    ensures fresh(ObjectOf(mapper)) && KindOf(mapper) == kind && CartridgeOf(mapper) == memory && Register(mapper) == 0
  {
    match kind {
      case NROMKind =>
        var m := new MapperNROM(memory);
        mapper := NromMapper(m);
      case UxROMKind =>
        var m := new MapperUxROM(memory);
        mapper := UxromMapper(m);
      case CNROMKind =>
        var m := new MapperCNROM(memory);
        mapper := CnromMapper(m);
    }
  }

  method NewCartridge(romData: seq<byte>) returns (r: Result<Cartridge>)
    ensures SplitINESRom(romData).Err? ==> r == Err(SplitINESRom(romData).error)
    ensures SplitINESRom(romData).Ok? && MapperFor(SplitINESRom(romData).value.header.mapperId).None? ==>
      r.Err? && r.error.Error? && r.error.message ==
        "Mapper " + NatToString(SplitINESRom(romData).value.header.mapperId) + " is not implemented yet."
    ensures r.Ok? ==> var c := r.value; var split := SplitINESRom(romData).value;
      && SplitINESRom(romData).Ok?
      && fresh(c) && fresh(c.memory) && fresh(c.memory.chr) && fresh(c.memory.prgRam) && fresh(ObjectOf(c.mapper))
      && c.Valid()
      && c.header == split.header
      && c.memory.prgRom == split.prgRom
      && c.memory.hasChrRam == (|split.chrRom| == 0)
      && c.memory.chr[..] == (if |split.chrRom| == 0 then seq(CHR_RAM_SIZE, _ => 0) else split.chrRom)
      && c.memory.prgRam[..] == seq(Max(split.header.prgRamBytes, PRG_RAM_BANK_SIZE), _ => 0)
      && Some(KindOf(c.mapper)) == MapperFor(split.header.mapperId)
      && Register(c.mapper) == 0
    ensures SplitINESRom(romData).Ok? && MapperFor(SplitINESRom(romData).value.header.mapperId).Some? ==> r.Ok?
  {
    var split := SplitINESRom(romData);
    if split.Err? {
      return Err(split.error);
    }
    var header := split.value.header;
    var memory := NewMemory(split.value);
    var id: nat := header.mapperId;
    var kind := MapperFor(id);
    if kind.None? {
      return Err(UnsupportedMapper(id));
    }
    var mapper := NewMapper(kind.value, memory);
    var c := new Cartridge(header, memory, mapper);
    r := Ok(c);
  }

  /** The CPU sees the cartridge through a 16-bit address: addresses 64 KiB apart read the same byte. */
  lemma CpuAddressWraps(c: Cartridge, address: int)
    requires c.Valid()
    ensures c.CpuRead(address + 0x10000) == c.CpuRead(address)
  {
    assert (address + 0x10000) % 0x10000 == address % 0x10000;
  }

  /** The PPU sees it through a 14-bit address. */
  lemma PpuAddressWraps(c: Cartridge, address: int)
    requires c.Valid()
    ensures c.PpuRead(address + 0x4000) == c.PpuRead(address)
  {
    assert (address + 0x4000) % 0x4000 == address % 0x4000;
  }

  /** A saved cartridge loads back to the same memories and mapper register. */
  method SaveLoadRoundTrip(c: Cartridge) returns (outcome: Outcome)
    requires c.Valid() && Register(c.mapper) < 0x100
    modifies c.memory.prgRam, c.memory.chr, ObjectOf(c.mapper)
    ensures outcome == Done
    ensures c.memory.prgRam[..] == old(c.memory.prgRam[..]) && c.memory.chr[..] == old(c.memory.chr[..])
    ensures Register(c.mapper) == old(Register(c.mapper))
  {
    var state := c.SaveState();
    SetOwnContents(state.prgRam);
    if state.chr.Some? {
      SetOwnContents(state.chr.value);
    }
    outcome := c.LoadState(state);
  }
}
