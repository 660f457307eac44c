/**
 * src/core/snes/bus.mjs: the SNES system bus. It decodes 24-bit addresses
 * to work RAM, the PPU and audio ports, the WRAM data port, the joypads, the
 * CPU I/O and DMA registers and the cartridge; keeps the open-bus byte; runs
 * the multiplier, the divider, general DMA and HDMA; and raises the H/V
 * timer IRQ.
 */
module SnesBus {
  import opened Bits
  import opened Wrappers
  import opened TypedArray
  import opened SnesPpu
  import opened SnesController
  import opened SnesCartridge

  const WRAM_SIZE: nat := 0x20000
  const IO_REGISTER_COUNT: nat := 0x100
  const DMA_REGISTER_COUNT: nat := 0x80
  const CHANNELS: nat := 8
  const AUDIO_PORTS: nat := 4
  const VISIBLE_SCANLINES: nat := 224

  /** `DMA_TRANSFER_PATTERNS`: the B-bus offsets each of the eight transfer modes cycles through. */
  const DMA_TRANSFER_PATTERNS: seq<seq<nat>> :=
    [[0], [0, 1], [0, 0], [0, 0, 1, 1], [0, 1, 2, 3], [0, 1, 0, 1], [0, 0], [0, 0, 1, 1]]

  /** The pattern of DMAP's mode bits: one to four offsets, each below 4. */
  function Pattern(dmap: byte): (r: seq<nat>)
    ensures 1 <= |r| <= 4 && forall i :: 0 <= i < |r| ==> r[i] < 4
  {
    DMA_TRANSFER_PATTERNS[dmap % 8]
  }

  // ---------------------------------------------------------------------
  // Address decoding

  function Bank(address: int): byte { (address % 0x100_0000) / 0x1_0000 }
  function Offset(address: int): word { address % 0x1_0000 }

  /** Banks 0x00-0x3F and 0x80-0xBF carry the system area below 0x8000. */
  predicate SystemBank(bank: byte) { bank % 0x80 <= 0x3f }

  /**
   * `#resolveWRAMOffset`: banks 0x7E-0x7F map all 128 KiB of work RAM, and
   * offsets below 0x2000 of a system bank map its first 8 KiB; nothing else
   * is work RAM.
   */
  function WramOffset(bank: byte, address: word): (r: Option<nat>)
    ensures r.Some? <==> bank == 0x7e || bank == 0x7f || (SystemBank(bank) && address < 0x2000)
    ensures r.Some? ==> r.value < WRAM_SIZE
  {
    if bank == 0x7e || bank == 0x7f then Some(((bank - 0x7e) * 0x1_0000 + address) % WRAM_SIZE)
    else if SystemBank(bank) && address < 0x2000 then Some(address % 0x2000)
    else None
  }

  /** What an address reaches on the bus. */
  datatype Target =
    | WorkRam(offset: nat)
    | PpuPort(index: nat)
    | AudioPort(index: nat)
    | WramDataPort(port: nat)
    | JoypadPort(player: nat)
    | NmiStatusPort
    | TimeUpPort
    | HvbjoyPort
    | IoRegister(index: nat)
    | DmaRegister(index: nat)
    | CartridgeSpace(bank: byte, address: word)

  /** The indices a target carries fit the memory or port behind it. */
  predicate InRange(t: Target)
  {
    match t
    case WorkRam(o) => o < WRAM_SIZE
    case PpuPort(i) => i < REGISTER_COUNT
    case AudioPort(i) => i < AUDIO_PORTS
    case WramDataPort(p) => p < 4
    case JoypadPort(p) => p < 2
    case IoRegister(i) => i < IO_REGISTER_COUNT
    case DmaRegister(i) => i < DMA_REGISTER_COUNT
    case _ => true
  }

  /** The decoding of `read(address)`, in the order its tests are made. */
  function ReadTargetOf(address: int): (t: Target)
    ensures InRange(t)
  {
    var bank := Bank(address);
    var offset := Offset(address);
    var wram := WramOffset(bank, offset);
    if wram.Some? then WorkRam(wram.value)
    else if !SystemBank(bank) then CartridgeSpace(bank, offset)
    else if 0x2100 <= offset <= 0x213f then PpuPort(offset - 0x2100)
    else if 0x2140 <= offset <= 0x2143 then AudioPort(offset - 0x2140)
    else if 0x2180 <= offset <= 0x2183 then WramDataPort(offset - 0x2180)
    else if offset == 0x4016 || offset == 0x4017 then JoypadPort(offset - 0x4016)
    else if offset == 0x4210 then NmiStatusPort
    else if offset == 0x4212 then HvbjoyPort
    else if offset == 0x4211 then TimeUpPort
    else if 0x4214 <= offset <= 0x421b then IoRegister(offset - 0x4200)
    else if 0x4300 <= offset <= 0x437f then DmaRegister(offset - 0x4300)
    else if 0x4200 <= offset <= 0x420f then IoRegister(offset - 0x4200)
    else CartridgeSpace(bank, offset)
  }

  /** The decoding of `write(address, value)`, in the order its tests are made. */
  function WriteTargetOf(address: int): (t: Target)
    ensures InRange(t)
  {
    var bank := Bank(address);
    var offset := Offset(address);
    var wram := WramOffset(bank, offset);
    if wram.Some? then WorkRam(wram.value)
    else if !SystemBank(bank) then CartridgeSpace(bank, offset)
    else if 0x2100 <= offset <= 0x213f then PpuPort(offset - 0x2100)
    else if 0x2140 <= offset <= 0x2143 then AudioPort(offset - 0x2140)
    else if 0x2180 <= offset <= 0x2183 then WramDataPort(offset - 0x2180)
    else if offset == 0x4016 then JoypadPort(0)
    else if 0x4300 <= offset <= 0x437f then DmaRegister(offset - 0x4300)
    else if 0x4200 <= offset <= 0x420f then IoRegister(offset - 0x4200)
    else CartridgeSpace(bank, offset)
  }

  /** Banks 0x7E and 0x7F address work RAM linearly: bank 0x7F continues where 0x7E ends. */
  lemma WramBanksAreLinear(address: word)
    ensures ReadTargetOf(0x7e_0000 + address) == WorkRam(address)
    ensures ReadTargetOf(0x7f_0000 + address) == WorkRam(0x1_0000 + address)
    ensures WriteTargetOf(0x7e_0000 + address) == WorkRam(address)
    ensures WriteTargetOf(0x7f_0000 + address) == WorkRam(0x1_0000 + address)
  {
    DivModOf(0x7e_0000 + address, 0x1_0000, 0x7e, address);
    DivModOf(0x7f_0000 + address, 0x1_0000, 0x7f, address);
  }

  /** Below 0x2000 every system bank reads and writes the first 8 KiB of work RAM. */
  lemma LowRamMirrors(bank: byte, address: word)
    requires SystemBank(bank) && address < 0x2000
    ensures ReadTargetOf(bank * 0x1_0000 + address) == WorkRam(address)
    ensures WriteTargetOf(bank * 0x1_0000 + address) == WorkRam(address)
  {
    DivModOf(bank * 0x1_0000 + address, 0x1_0000, bank, address);
  }

  /** The I/O of banks 0x80-0xBF is the I/O of banks 0x00-0x3F; only the cartridge sees the bank. */
  lemma HighSystemBanksMirror(bank: byte, address: word)
    requires bank < 0x40
    ensures var t := ReadTargetOf(bank * 0x1_0000 + address);
      t.CartridgeSpace? || ReadTargetOf((bank + 0x80) * 0x1_0000 + address) == t
    ensures var t := WriteTargetOf(bank * 0x1_0000 + address);
      t.CartridgeSpace? || WriteTargetOf((bank + 0x80) * 0x1_0000 + address) == t
  {
    DivModOf(bank * 0x1_0000 + address, 0x1_0000, bank, address);
    DivModOf((bank + 0x80) * 0x1_0000 + address, 0x1_0000, bank + 0x80, address);
  }

  /** Outside banks 0x00-0x3F, 0x7E-0x7F and 0x80-0xBF every access goes to the cartridge. */
  lemma CartridgeBanks(address: int)
    requires !SystemBank(Bank(address)) && Bank(address) != 0x7e && Bank(address) != 0x7f
    ensures ReadTargetOf(address) == CartridgeSpace(Bank(address), Offset(address))
    ensures WriteTargetOf(address) == CartridgeSpace(Bank(address), Offset(address))
  {
  }

  /** A little-endian register pair, as `low | (high << 8)`. */
  function WordOf(low: byte, high: byte): (r: word)
    ensures r % 0x100 == low && r / 0x100 == high
  {
    var r: int := low + (high as int) * 0x100;
    DivModOf(r, 0x100, high, low);
    r
  }

  // ---------------------------------------------------------------------
  // Multiplier and divider

  /** A product of two bytes fits 16 bits. */
  lemma ByteProductBound(a: byte, b: byte)
    ensures a * b <= 0xfe01
  {
    assert a * b <= a * 0xff;
    assert a * 0xff <= 0xff * 0xff;
  }

  /** A 16-bit result stored in a register pair, low byte first; nothing else changes. */
  function WithWordAt(io: seq<byte>, i: nat, w: word): (r: seq<byte>)
    requires i + 1 < |io|
    ensures |r| == |io| && WordOf(r[i], r[i + 1]) == w
    ensures forall j :: 0 <= j < |io| && j != i && j != i + 1 ==> r[j] == io[j]
  {
    DivModOf(w, 0x100, w / 0x100, w % 0x100);
    io[i := w % 0x100][i + 1 := w / 0x100]
  }

  /** `#updateMultiplication`: RDMPYL/RDMPYH (0x16/0x17) take the product of WRMPYA and WRMPYB (0x02/0x03). */
  function WithProduct(io: seq<byte>): (r: seq<byte>)
    requires |io| == IO_REGISTER_COUNT
    ensures |r| == IO_REGISTER_COUNT
    ensures WordOf(r[0x16], r[0x17]) == (io[0x02] as int) * io[0x03]
    ensures forall i :: 0 <= i < IO_REGISTER_COUNT && i != 0x16 && i != 0x17 ==> r[i] == io[i]
  {
    ByteProductBound(io[0x02], io[0x03]);
    WithWordAt(io, 0x16, (io[0x02] as int) * io[0x03])
  }

  /** The divider's answer: for divisor 0 the hardware's 0xFFFF and the dividend. */
  datatype Quotient = Quotient(quotient: word, remainder: word)

  function Divide(dividend: word, divisor: byte): (r: Quotient)
    ensures divisor == 0 ==> r == Quotient(0xffff, dividend)
    ensures divisor > 0 ==> dividend == r.quotient * divisor + r.remainder && r.remainder < divisor
  {
    if divisor == 0 then Quotient(0xffff, dividend)
    else Quotient(dividend / divisor, dividend % divisor)
  }

  /**
   * `#updateDivision`: RDDIVL/RDDIVH (0x14/0x15) take the quotient and
   * RDMPYL/RDMPYH (0x16/0x17) the remainder of WRDIVL/WRDIVH (0x04/0x05)
   * by WRDIVB (0x06).
   */
  function WithQuotient(io: seq<byte>): (r: seq<byte>)
    requires |io| == IO_REGISTER_COUNT
    ensures |r| == IO_REGISTER_COUNT
    ensures var d := Divide(WordOf(io[0x04], io[0x05]), io[0x06]);
      WordOf(r[0x14], r[0x15]) == d.quotient && WordOf(r[0x16], r[0x17]) == d.remainder
    ensures forall i :: 0 <= i < IO_REGISTER_COUNT && !(0x14 <= i <= 0x17) ==> r[i] == io[i]
  {
    var d := Divide(WordOf(io[0x04], io[0x05]), io[0x06]);
    WithWordAt(WithWordAt(io, 0x14, d.quotient), 0x16, d.remainder)
  }

  /** The I/O registers after a byte is stored at index `i` (0x00-0x0F), with the arithmetic units' results. */
  function IoAfterWrite(io: seq<byte>, i: nat, b: byte): (r: seq<byte>)
    requires |io| == IO_REGISTER_COUNT && i < IO_REGISTER_COUNT
    ensures |r| == IO_REGISTER_COUNT && r[i] == b
  {
    var stored := io[i := b];
    if i == 0x02 || i == 0x03 then WithProduct(stored)
    else if 0x04 <= i <= 0x06 then WithQuotient(stored)
    else stored
  }

  /** Division by zero reads back 0xFFFF and the dividend. */
  lemma DivideByZero(io: seq<byte>)
    requires |io| == IO_REGISTER_COUNT && io[0x06] == 0
    ensures var r := WithQuotient(io);
      r[0x14] == 0xff && r[0x15] == 0xff && r[0x16] == io[0x04] && r[0x17] == io[0x05]
  {
    var r := WithQuotient(io);
    assert WordOf(r[0x14], r[0x15]) == 0xffff;
    DivModOf(0xffff, 0x100, 0xff, 0xff);
    assert WordOf(r[0x16], r[0x17]) == WordOf(io[0x04], io[0x05]);
  }

  // ---------------------------------------------------------------------
  // WRAM data port (0x2180-0x2183)

  /** WMDATA reads the byte at the 17-bit port address; WMADDL/M/H read back its three bytes. */
  function WramPortValue(wram: seq<byte>, address: nat, port: nat): (r: byte)
    requires |wram| == WRAM_SIZE && port < 4
    ensures port == 0 ==> r == wram[address % WRAM_SIZE]
  {
    if port == 0 then wram[address % WRAM_SIZE]
    else if port == 1 then address % 0x100
    else if port == 2 then (address / 0x100) % 0x100
    else (address / 0x1_0000) % 2
  }

  /** Reading WMDATA moves the port address on by one within 128 KiB; the other ports leave it. */
  function WramAddressAfterRead(address: nat, port: nat): (r: nat)
    ensures r < WRAM_SIZE || r == address
  {
    if port == 0 then (address + 1) % WRAM_SIZE else address
  }

  /** WMDATA stores at the port address and moves on; WMADDL/M/H replace one byte of the 17-bit address. */
  function WramAddressAfterWrite(address: nat, port: nat, b: byte): (r: nat)
    requires port < 4
    ensures r < WRAM_SIZE
  {
    if port == 0 then (address + 1) % WRAM_SIZE
    else if port == 1 then ((address / 0x100) % 0x200) * 0x100 + b
    else if port == 2 then ((address / 0x1_0000) % 2) * 0x1_0000 + b * 0x100 + address % 0x100
    else address % 0x1_0000 + (b % 2) * 0x1_0000
  }

  /** Work RAM after a byte reaches the WRAM data port. */
  function WramAfterPortWrite(wram: seq<byte>, address: nat, port: nat, b: byte): (r: seq<byte>)
    requires |wram| == WRAM_SIZE && port < 4
    ensures |r| == WRAM_SIZE
    ensures port == 0 ==> r == wram[address % WRAM_SIZE := b]
    ensures port != 0 ==> r == wram
  {
    if port == 0 then wram[address % WRAM_SIZE := b] else wram
  }

  /** Writing WMADDL, WMADDM and WMADDH sets the port address to `h:m:l` with one bit of `h`, from any address. */
  lemma WramAddressFromPorts(address: nat, low: byte, middle: byte, high: byte)
    ensures var a := WramAddressAfterWrite(WramAddressAfterWrite(WramAddressAfterWrite(address, 1, low), 2, middle), 3, high);
      a == (high % 2) * 0x1_0000 + middle * 0x100 + low
  {
    var a1 := WramAddressAfterWrite(address, 1, low);
    DivModOf(a1, 0x100, (address / 0x100) % 0x200, low);
    var a2 := WramAddressAfterWrite(a1, 2, middle);
    DivModOf(a2, 0x1_0000, (a1 / 0x1_0000) % 2, middle * 0x100 + low);
  }

  /** The three address ports read back the address that was written to them. */
  lemma WramAddressReadsBack(wram: seq<byte>, address: nat)
    requires |wram| == WRAM_SIZE && address < WRAM_SIZE
    ensures WramPortValue(wram, address, 1) + WramPortValue(wram, address, 2) * 0x100
            + WramPortValue(wram, address, 3) * 0x1_0000 == address
  {
    DivModOf(address, 0x100, address / 0x100, address % 0x100);
    DivModOf(address / 0x100, 0x100, address / 0x1_0000, (address / 0x100) % 0x100);
  }

  /** A byte written through WMDATA reads back through WMDATA once the address is set to the same place. */
  lemma WramPortRoundTrip(wram: seq<byte>, address: nat, b: byte)
    requires |wram| == WRAM_SIZE
    ensures WramPortValue(WramAfterPortWrite(wram, address, 0, b), address, 0) == b
    ensures WramAfterPortWrite(wram, address, 0, b)[address % WRAM_SIZE] == b
  {
  }

  // ---------------------------------------------------------------------
  // Timer IRQ

  /** The `k`-th event of a periodic timer. */
  function EventAt(offset: int, period: nat, k: int): int { offset + k * period }

  /** `#intervalHasEvent`: the first event after `before` is at or before `after`. */
  function IntervalHasEvent(before: int, after: int, offset: int, period: nat): bool
    requires period > 0
  {
    if after <= before then false
    else EventAt(offset, period, (before - offset) / period + 1) <= after
  }

  lemma EventsIncrease(offset: int, period: nat, j: int, k: int)
    requires period > 0 && j <= k
    ensures EventAt(offset, period, j) <= EventAt(offset, period, k)
  {
    assert k * period - j * period == (k - j) * period;
  }

  /** An interval has an event exactly when some event of the timer lies in `(before, after]`. */
  lemma {:induction false} IntervalHasEventExactly(before: int, after: int, offset: int, period: nat)
    requires period > 0
    ensures IntervalHasEvent(before, after, offset, period) <==>
      exists k :: before < EventAt(offset, period, k) <= after
  {
    var q := (before - offset) / period;
    var r := (before - offset) % period;
    assert before - offset == q * period + r;
    assert EventAt(offset, period, q + 1) == before - r + period;
    assert EventAt(offset, period, q) == before - r;
    if IntervalHasEvent(before, after, offset, period) {
      assert before < EventAt(offset, period, q + 1) <= after;
    }
    if k :| before < EventAt(offset, period, k) <= after {
      if k <= q {
        EventsIncrease(offset, period, k, q);
        assert false;
      }
      EventsIncrease(offset, period, q + 1, k);
    }
  }

  /** `#toAbsoluteMasterCycle`. */
  function AbsoluteCycle(frame: int, scanline: int, cycle: int): int
  {
    frame * FRAME_CYCLES + scanline * LINE_CYCLES + cycle
  }

  /** HTIME (0x07/0x08) and VTIME (0x09/0x0A): nine bits each. */
  function HTimer(io: seq<byte>): (r: nat)
    requires |io| == IO_REGISTER_COUNT
    ensures r < 0x200
  {
    io[0x07] + (io[0x08] as int % 2) * 0x100
  }

  function VTimer(io: seq<byte>): (r: nat)
    requires |io| == IO_REGISTER_COUNT
    ensures r < 0x200
  {
    io[0x09] + (io[0x0a] as int % 2) * 0x100
  }

  /** The H timer's dot within a line (4 master cycles a dot); 0 when HTIME is out of range. */
  function HTarget(io: seq<byte>): nat
    requires |io| == IO_REGISTER_COUNT
  {
    if HTimer(io) < 340 then HTimer(io) * 4 else 0
  }

  /** The master cycle within a frame where line VTIME reaches the H timer's dot. */
  function HvTarget(io: seq<byte>): nat
    requires |io| == IO_REGISTER_COUNT
  {
    VTimer(io) * LINE_CYCLES + HTarget(io)
  }

  /** The master cycle within a frame where line VTIME starts. */
  function VTarget(io: seq<byte>): nat
    requires |io| == IO_REGISTER_COUNT
  {
    VTimer(io) * LINE_CYCLES
  }

  /** NMITIMEN bits 4-5: 0 off, 1 H timer on every line, 2 V timer at dot 0, 3 H and V timers. */
  function IrqMode(io: seq<byte>): (r: nat)
    requires |io| == IO_REGISTER_COUNT
    ensures r < 4
  {
    (io[0x00] / 0x10) % 4
  }

  /**
   * `#updateIRQ`'s test: whether the step from `before` to `after` master
   * cycles passes the programmed H/V position; an H timer of 340 or more or
   * a V timer of 262 or more never fires.
   */
  function IrqTriggered(io: seq<byte>, before: int, after: int): bool
    requires |io| == IO_REGISTER_COUNT
  {
    var mode := IrqMode(io);
    var validH := HTimer(io) < 340;
    var validV := VTimer(io) < LINES_PER_FRAME;
    if mode == 0 then false
    else if mode == 1 then validH && IntervalHasEvent(before, after, HTarget(io), LINE_CYCLES)
    else if mode == 2 then validV && IntervalHasEvent(before, after, VTarget(io), FRAME_CYCLES)
    else validV && validH && IntervalHasEvent(before, after, HvTarget(io), FRAME_CYCLES)
  }

  /** The H timer fires when the step passes dot `4 * HTIME` of some line. */
  lemma HTimerFires(io: seq<byte>, before: int, after: int)
    requires |io| == IO_REGISTER_COUNT && IrqMode(io) == 1 && HTimer(io) < 340
    ensures IrqTriggered(io, before, after) <==> exists k :: before < EventAt(HTarget(io), LINE_CYCLES, k) <= after
  {
    IntervalHasEventExactly(before, after, HTarget(io), LINE_CYCLES);
  }

  /** The V timer alone fires when the step passes the start of line VTIME of some frame. */
  lemma VTimerFires(io: seq<byte>, before: int, after: int)
    requires |io| == IO_REGISTER_COUNT && IrqMode(io) == 2 && VTimer(io) < LINES_PER_FRAME
    ensures IrqTriggered(io, before, after) <==> exists k :: before < EventAt(VTarget(io), FRAME_CYCLES, k) <= after
  {
    IntervalHasEventExactly(before, after, VTarget(io), FRAME_CYCLES);
  }

  /** The V and H timers together fire when the step passes dot `4 * HTIME` of line VTIME of some frame. */
  lemma HvTimerFires(io: seq<byte>, before: int, after: int)
    requires |io| == IO_REGISTER_COUNT && IrqMode(io) == 3 && HTimer(io) < 340 && VTimer(io) < LINES_PER_FRAME
    ensures IrqTriggered(io, before, after) <==>
      exists k :: before < EventAt(HvTarget(io), FRAME_CYCLES, k) <= after
  {
    IntervalHasEventExactly(before, after, HvTarget(io), FRAME_CYCLES);
  }

  /** Timers out of range, or the IRQ mode 0, never fire. */
  lemma IrqOffOrOutOfRange(io: seq<byte>, before: int, after: int)
    requires |io| == IO_REGISTER_COUNT
    requires IrqMode(io) == 0 || (IrqMode(io) == 1 && HTimer(io) >= 340) || (IrqMode(io) >= 2 && VTimer(io) >= LINES_PER_FRAME)
    ensures !IrqTriggered(io, before, after)
  {
  }

  // ---------------------------------------------------------------------
  // General DMA

  /** DAS (registers 5/6): 0 means 65536 bytes. */
  function DmaSize(regs: seq<byte>, channel: nat): (r: nat)
    requires |regs| == DMA_REGISTER_COUNT && channel < CHANNELS
    ensures 1 <= r <= 0x1_0000
    ensures r == 0x1_0000 <==> regs[channel * 0x10 + 5] == 0 && regs[channel * 0x10 + 6] == 0
  {
    var base := channel * 0x10;
    var size := WordOf(regs[base + 5], regs[base + 6]);
    if size == 0 then 0x1_0000 else size
  }

  /** The A-bus address after `i` bytes: fixed (DMAP bit 3), down (bit 4) or up, within its bank. */
  function A1tAfter(dmap: byte, a1t: word, i: nat): (r: word)
    ensures (dmap / 8) % 2 == 1 ==> r == a1t
  {
    if (dmap / 8) % 2 == 1 then a1t
    else if (dmap / 0x10) % 2 == 1 then (a1t - i) % 0x1_0000
    else (a1t + i) % 0x1_0000
  }

  /** One byte of a transfer: its A-bus and B-bus addresses and its direction. */
  datatype DmaTransfer = DmaTransfer(aAddress: int, bAddress: int, bToA: bool)

  /** Transfer `i` of channel `channel`: A-bus address after `i` steps, B-bus offset from the pattern, direction from DMAP bit 7. */
  function PlanTransfer(regs: seq<byte>, channel: nat, i: nat): DmaTransfer
    requires |regs| == DMA_REGISTER_COUNT && channel < CHANNELS
  {
    var base := channel * 0x10;
    var pattern := Pattern(regs[base]);
    DmaTransfer(regs[base + 4] as int * 0x1_0000 + A1tAfter(regs[base], WordOf(regs[base + 2], regs[base + 3]), i),
                0x2100 + (regs[base + 1] as int + pattern[i % |pattern|]) % 0x100,
                regs[base] >= 0x80)
  }

  /** Every B-bus address of a transfer lies in 0x2100-0x21FF, and the offsets repeat with the pattern's period. */
  lemma PlanCyclesPattern(regs: seq<byte>, channel: nat, i: nat)
    requires |regs| == DMA_REGISTER_COUNT && channel < CHANNELS
    requires i + |Pattern(regs[channel * 0x10])| < DmaSize(regs, channel)
    ensures 0x2100 <= PlanTransfer(regs, channel, i).bAddress <= 0x21ff
    ensures PlanTransfer(regs, channel, i + |Pattern(regs[channel * 0x10])|).bAddress == PlanTransfer(regs, channel, i).bAddress
  {
    var n := |Pattern(regs[channel * 0x10])|;
    DivModOf(i + n, n, i / n + 1, i % n);
  }

  /** In increment mode the A-bus address moves by one per byte, within its bank. */
  lemma PlanSteps(regs: seq<byte>, channel: nat, i: nat)
    requires |regs| == DMA_REGISTER_COUNT && channel < CHANNELS && i + 1 < DmaSize(regs, channel)
    requires (regs[channel * 0x10] / 8) % 2 == 0 && (regs[channel * 0x10] / 0x10) % 2 == 0
    ensures PlanTransfer(regs, channel, i + 1).aAddress % 0x1_0000 == (PlanTransfer(regs, channel, i).aAddress + 1) % 0x1_0000
    ensures PlanTransfer(regs, channel, i + 1).aAddress / 0x1_0000 == PlanTransfer(regs, channel, i).aAddress / 0x1_0000
  {
    var base := channel * 0x10;
    var a1t := WordOf(regs[base + 2], regs[base + 3]);
    var bank := regs[base + 4];
    var x := (a1t + i) % 0x1_0000;
    var y := (a1t + i + 1) % 0x1_0000;
    DivModOf(bank * 0x1_0000 + x, 0x1_0000, bank, x);
    DivModOf(bank * 0x1_0000 + y, 0x1_0000, bank, y);
    DivModOf(a1t + i, 0x1_0000, (a1t + i) / 0x1_0000, x);
    if x == 0xffff {
      DivModOf(a1t + i + 1, 0x1_0000, (a1t + i) / 0x1_0000 + 1, 0);
      DivModOf(bank * 0x1_0000 + x + 1, 0x1_0000, bank + 1, 0);
    } else {
      DivModOf(a1t + i + 1, 0x1_0000, (a1t + i) / 0x1_0000, x + 1);
      DivModOf(bank * 0x1_0000 + x + 1, 0x1_0000, bank, x + 1);
    }
  }

  /** Channels selected by an MDMAEN mask at or above `from`, in ascending order. */
  function SelectedChannels(mask: byte, from: nat): (r: seq<nat>)
    requires from <= CHANNELS
    ensures forall i :: 0 <= i < |r| ==> from <= r[i] < CHANNELS && ChannelEnabled(mask, r[i])
    ensures forall i, j :: 0 <= i < j < |r| ==> r[i] < r[j]
    ensures |r| <= CHANNELS - from
    decreases CHANNELS - from
  {
    if from == CHANNELS then []
    else if ChannelEnabled(mask, from) then [from] + SelectedChannels(mask, from + 1)
    else SelectedChannels(mask, from + 1)
  }

  /** Every channel whose MDMAEN bit is set is run. */
  lemma {:induction false} SelectedChannelsComplete(mask: byte, from: nat, c: nat)
    requires from <= c < CHANNELS && ChannelEnabled(mask, c)
    ensures c in SelectedChannels(mask, from)
    decreases c - from
  {
    if from < c {
      SelectedChannelsComplete(mask, from + 1, c);
    }
  }

  // ---------------------------------------------------------------------
  // HDMA line counters

  /** One channel's line state: the four `Uint8Array` entries `hdmaActive`, `hdmaLineCounter`, `hdmaDoTransfer`, `hdmaRepeat`. */
  datatype HdmaLine = HdmaLine(active: byte, counter: byte, doTransfer: byte, repeat: byte)

  /**
   * `#reloadHDMAChannel`'s line header: 0x00 ends the channel, 0x80 is 128
   * lines without repeat, any other header gives repeat from bit 7 and the
   * line count from bits 0-6; the next line transfers.
   */
  function Reloaded(line: HdmaLine, header: byte): HdmaLine
  {
    if header == 0 then line.(active := 0, counter := 0, doTransfer := 0)
    else
      var repeat := if header == 0x80 then 0 else if header >= 0x80 then 1 else 0;
      var count := if header == 0x80 then 128 else header % 0x80;
      line.(repeat := repeat, counter := if count == 0 then 128 else count, doTransfer := 1)
  }

  /** The line counter after a line: `hdmaLineCounter -= 1` in a `Uint8Array`, then the next line's transfer flag. */
  function CountedDown(line: HdmaLine): HdmaLine
  {
    var counter := (line.counter - 1) % 0x100;
    line.(counter := counter, doTransfer := if counter == 0 then 1 else if line.repeat != 0 then 1 else 0)
  }

  /**
   * `#runHDMAScanline` for one active channel, given the header byte a
   * reload would read: the new line state and whether the channel
   * transferred on this line.
   */
  function LineStep(line: HdmaLine, header: byte): (HdmaLine, bool)
  {
    var loaded := if line.counter == 0 then Reloaded(line, header) else line;
    if loaded.active == 0 then (loaded, false)
    else (CountedDown(loaded), loaded.doTransfer != 0)
  }

  /** A zero header ends the channel without a transfer; so does any header on an inactive line. */
  lemma ZeroHeaderEnds(line: HdmaLine)
    requires line.counter == 0
    ensures LineStep(line, 0) == (line.(active := 0, counter := 0, doTransfer := 0), false)
  {
  }

  /** 0x80 loads 128 lines without repeat, counts the first one and transfers on it. */
  lemma FullBlockHeader(line: HdmaLine)
    requires line.counter == 0 && line.active != 0
    ensures LineStep(line, 0x80) == (HdmaLine(line.active, 127, 0, 0), true)
  {
  }

  /**
   * Any other header loads repeat from bit 7 and the count from bits 0-6,
   * transfers on its first line, and then transfers on every line exactly
   * when it repeats or the count has run out.
   */
  lemma HeaderLoadsCount(line: HdmaLine, header: byte)
    requires line.counter == 0 && line.active != 0 && header != 0 && header != 0x80
    ensures var (next, transferred) := LineStep(line, header);
      && transferred
      && next.counter == header % 0x80 - 1 && next.active == line.active
      && next.repeat == (if header >= 0x80 then 1 else 0)
      && next.doTransfer == (if next.counter == 0 || header >= 0x80 then 1 else 0)
  {
  }

  /** Between reloads a line counts down by one and transfers iff its flag was set; the flag then follows repeat, or is set at 0. */
  lemma CountingLine(line: HdmaLine, header: byte)
    requires line.counter != 0 && line.active != 0
    ensures var (next, transferred) := LineStep(line, header);
      && transferred == (line.doTransfer != 0)
      && next.counter == line.counter - 1 && next.active == line.active && next.repeat == line.repeat
      && next.doTransfer == (if next.counter == 0 then 1 else if line.repeat != 0 then 1 else 0)
  {
  }

  /** The line numbers the HDMA walk visits from one PPU position to the next, wrapping after line 261. */
  function Walk(frame: nat, scanline: nat, afterFrame: nat, afterScanline: nat): (r: seq<nat>)
    requires Reachable(frame, scanline, afterFrame, afterScanline)
    ensures |r| == Distance(frame, scanline, afterFrame, afterScanline)
    ensures forall i :: 0 <= i < |r| ==> r[i] < LINES_PER_FRAME
    decreases Distance(frame, scanline, afterFrame, afterScanline)
  {
    if frame == afterFrame && scanline == afterScanline then []
    else [NextScanline(scanline)] + Walk(NextFrame(frame, scanline), NextScanline(scanline), afterFrame, afterScanline)
  }

  /** The line after `scanline`: line 261 wraps to line 0. */
  function NextScanline(scanline: nat): nat
  {
    if scanline + 1 >= LINES_PER_FRAME then 0 else scanline + 1
  }

  /** The frame of the line after `scanline`: wrapping to line 0 starts the next frame. */
  function NextFrame(frame: nat, scanline: nat): nat
  {
    if scanline + 1 >= LINES_PER_FRAME then frame + 1 else frame
  }

  /** The position `(afterFrame, afterScanline)` is at or after `(frame, scanline)`. */
  predicate Reachable(frame: nat, scanline: nat, afterFrame: nat, afterScanline: nat)
  {
    scanline < LINES_PER_FRAME && afterScanline < LINES_PER_FRAME
    && (afterFrame > frame || (afterFrame == frame && afterScanline >= scanline))
  }

  /** How many lines lie between two positions. */
  function Distance(frame: nat, scanline: nat, afterFrame: nat, afterScanline: nat): nat
    requires Reachable(frame, scanline, afterFrame, afterScanline)
  {
    (afterFrame - frame) * LINES_PER_FRAME + afterScanline - scanline
  }

  /** A position of `#clockHDMA`'s walk: its `frame` and `scanline` variables. */
  datatype LinePosition = LinePosition(frame: nat, scanline: nat)

  /** Where the walk stands after `k` turns of its loop, whatever its target. */
  function Stepped(frame: nat, scanline: nat, k: nat): LinePosition
  {
    if k == 0 then LinePosition(frame, scanline)
    else
      var p := Stepped(frame, scanline, k - 1);
      LinePosition(NextFrame(p.frame, p.scanline), NextScanline(p.scanline))
  }

  /** The walk only moves forward: every position is at or after the start. */
  lemma {:induction false} SteppedMovesForward(frame: nat, scanline: nat, k: nat)
    requires scanline < LINES_PER_FRAME
    ensures var p := Stepped(frame, scanline, k);
      p.scanline < LINES_PER_FRAME && (p.frame > frame || (p.frame == frame && p.scanline >= scanline))
  {
    if k > 0 {
      SteppedMovesForward(frame, scanline, k - 1);
    }
  }

  /**
   * A snapshot may pair a line with a master cycle of another line. Loaded
   * on line 10 with master cycle 0, one CPU cycle takes the PPU to line 0 of
   * the same frame, which lies behind the walk's start, so the walk's loop
   * never meets its target.
   */
  lemma LoadedLineNeverReached(f: PpuFields, k: nat)
    requires f.scanline == 10 && f.masterCycleInFrame == 0
    ensures !InFrame(f)
    ensures ClockedFields(f, 6).frame == f.frame && ClockedFields(f, 6).scanline == 0
    ensures !Reachable(f.frame, f.scanline, ClockedFields(f, 6).frame, ClockedFields(f, 6).scanline)
    ensures Stepped(f.frame, f.scanline, k) != LinePosition(ClockedFields(f, 6).frame, ClockedFields(f, 6).scanline)
  {
    SteppedMovesForward(f.frame, f.scanline, k);
  }

  /** A non-empty walk ends on the PPU's new line. */
  lemma {:induction false} WalkEndsOnTarget(frame: nat, scanline: nat, afterFrame: nat, afterScanline: nat)
    requires Reachable(frame, scanline, afterFrame, afterScanline)
    requires frame != afterFrame || scanline != afterScanline
    ensures var w := Walk(frame, scanline, afterFrame, afterScanline); |w| > 0 && w[|w| - 1] == afterScanline
    decreases Distance(frame, scanline, afterFrame, afterScanline)
  {
    var next, nextFrame := NextScanline(scanline), NextFrame(frame, scanline);
    if nextFrame != afterFrame || next != afterScanline {
      WalkEndsOnTarget(nextFrame, next, afterFrame, afterScanline);
    }
  }

  /** Within one frame the walk visits each following line once, in order. */
  lemma {:induction false} WalkWithinFrame(frame: nat, scanline: nat, afterScanline: nat)
    requires scanline <= afterScanline < LINES_PER_FRAME
    ensures Walk(frame, scanline, frame, afterScanline) == seq(afterScanline - scanline, i => scanline + 1 + i)
    decreases afterScanline - scanline
  {
    if scanline < afterScanline {
      WalkWithinFrame(frame, scanline + 1, afterScanline);
    }
  }

  /** One step of the walk: the next line, then the walk from there, which is shorter. */
  lemma WalkStep(frame: nat, scanline: nat, afterFrame: nat, afterScanline: nat)
    requires Reachable(frame, scanline, afterFrame, afterScanline)
    requires frame != afterFrame || scanline != afterScanline
    ensures Reachable(NextFrame(frame, scanline), NextScanline(scanline), afterFrame, afterScanline)
    ensures Distance(NextFrame(frame, scanline), NextScanline(scanline), afterFrame, afterScanline)
      < Distance(frame, scanline, afterFrame, afterScanline)
    ensures Walk(frame, scanline, afterFrame, afterScanline)
      == [NextScanline(scanline)] + Walk(NextFrame(frame, scanline), NextScanline(scanline), afterFrame, afterScanline)
  {
  }

  /** `#crossedScanline`: whether going from `before` to `after` passes the start of line `target`. */
  function CrossedScanline(beforeFrame: nat, beforeScanline: nat, afterFrame: nat, afterScanline: nat, target: nat): bool
  {
    if afterFrame == beforeFrame then beforeScanline < target && afterScanline >= target
    else if afterFrame - beforeFrame > 1 then true
    else beforeScanline < target || afterScanline >= target
  }

  /** Between two positions one frame apart in step, crossing a line means visiting it on the walk. */
  lemma {:induction false} CrossedWithinFrame(frame: nat, scanline: nat, afterScanline: nat, target: nat)
    requires scanline <= afterScanline < LINES_PER_FRAME && target < LINES_PER_FRAME
    ensures CrossedScanline(frame, scanline, frame, afterScanline, target) <==>
      target in Walk(frame, scanline, frame, afterScanline)
  {
    WalkWithinFrame(frame, scanline, afterScanline);
    var w := Walk(frame, scanline, frame, afterScanline);
    if scanline < target <= afterScanline {
      assert w[target - scanline - 1] == target;
    }
  }

  /** A clock step from a consistent position reaches a later or equal position, so the HDMA walk ends. */
  lemma ClockReachable(f: PpuFields, step: nat)
    requires InFrame(f)
    ensures var g := ClockedFields(f, step); Reachable(f.frame, f.scanline, g.frame, g.scanline)
  {
    if step > 0 && f.masterCycleInFrame + step < FRAME_CYCLES {
      DivModOf(f.masterCycleInFrame + step, FRAME_CYCLES, 0, f.masterCycleInFrame + step);
      assert f.masterCycleInFrame / LINE_CYCLES <= (f.masterCycleInFrame + step) / LINE_CYCLES;
    }
  }

  // ---------------------------------------------------------------------
  // The bus as a value

  /** The scalar fields of `SNESBus`. */
  datatype BusFields = BusFields(irqPending: bool, irqFlag: bool, wramPortAddress: nat, openBus: byte,
                                 cpuCycles: nat, joypadStrobe: bool)

  /** The six HDMA arrays, one entry per channel. */
  datatype Hdma = Hdma(active: seq<byte>, counter: seq<byte>, doTransfer: seq<byte>, repeat: seq<byte>,
                       table: seq<word>, indirect: seq<word>)

  predicate HdmaSized(h: Hdma)
  {
    |h.active| == CHANNELS && |h.counter| == CHANNELS && |h.doTransfer| == CHANNELS && |h.repeat| == CHANNELS
    && |h.table| == CHANNELS && |h.indirect| == CHANNELS
  }

  /** Channel `c`'s entries of the four line arrays. */
  function LineOf(h: Hdma, c: nat): HdmaLine
    requires HdmaSized(h) && c < CHANNELS
  {
    HdmaLine(h.active[c], h.counter[c], h.doTransfer[c], h.repeat[c])
  }

  /** The HDMA arrays with channel `c`'s line entries replaced. */
  function WithLine(h: Hdma, c: nat, line: HdmaLine): (r: Hdma)
    requires HdmaSized(h) && c < CHANNELS
    ensures HdmaSized(r) && LineOf(r, c) == line && r.table == h.table && r.indirect == h.indirect
    ensures forall d :: 0 <= d < CHANNELS && d != c ==> LineOf(r, d) == LineOf(h, d)
  {
    h.(active := h.active[c := line.active], counter := h.counter[c := line.counter],
       doTransfer := h.doTransfer[c := line.doTransfer], repeat := h.repeat[c := line.repeat])
  }

  /**
   * The audio unit as the bus reaches it: the four ports the CPU reads,
   * which the sound processor writes, and the four the CPU writes.
   */
  datatype AudioPorts = AudioPorts(fromSpc: seq<byte>, toSpc: seq<byte>)

  /** Everything of a `SNESBus` its operations read or change. */
  datatype BusView = BusView(st: BusFields, wram: seq<byte>, io: seq<byte>, dma: seq<byte>, audio: AudioPorts,
                             hdma: Hdma, ppu: PpuView, pad1: Pad, pad2: Pad, sram: seq<byte>)

  predicate Sized(v: BusView, cart: SNESCartridge)
  {
    && cart.Valid()
    && |v.wram| == WRAM_SIZE && |v.io| == IO_REGISTER_COUNT && |v.dma| == DMA_REGISTER_COUNT
    && |v.audio.fromSpc| == AUDIO_PORTS && |v.audio.toSpc| == AUDIO_PORTS
    && HdmaSized(v.hdma) && ViewSized(v.ppu) && v.st.wramPortAddress < 0x1_0000_0000
  }

  /** Two bus values whose PPU counters and CPU cycle counts agree: bus accesses take no time of their own. */
  predicate SameClock(v: BusView, w: BusView)
  {
    PositionOf(v.ppu.fields) == PositionOf(w.ppu.fields) && v.st.cpuCycles == w.st.cpuCycles
  }

  /** The PPU counters agree with its master cycle, which the HDMA walk needs to end. */
  predicate Timed(v: BusView)
  {
    InFrame(v.ppu.fields)
  }

  lemma SameClockTimed(v: BusView, w: BusView)
    requires SameClock(v, w) && Timed(v)
    ensures Timed(w)
  {
  }

  // Reads

  /** The byte a decoded read target gives, and the bus after the read's side effects. */
  function Fetched(v: BusView, cart: SNESCartridge, t: Target): (r: (byte, BusView))
    requires Sized(v, cart) && InRange(t)
    ensures Sized(r.1, cart) && SameClock(r.1, v)
    ensures r.1.wram == v.wram && r.1.io == v.io && r.1.dma == v.dma && r.1.audio == v.audio
    ensures r.1.hdma == v.hdma && r.1.sram == v.sram && r.1.st.openBus == v.st.openBus
  {
    match t
    case WorkRam(o) => (v.wram[o], v)
    case PpuPort(i) =>
      var (b, p) := ViewRead(v.ppu, i);
      (b, v.(ppu := p))
    case AudioPort(i) => (v.audio.fromSpc[i], v)
    case WramDataPort(p) =>
      (WramPortValue(v.wram, v.st.wramPortAddress, p),
       v.(st := v.st.(wramPortAddress := WramAddressAfterRead(v.st.wramPortAddress, p))))
    case JoypadPort(player) =>
      var (bit, pad) := SerialRead(if player == 0 then v.pad1 else v.pad2);
      ((v.st.openBus / 2) * 2 + bit, if player == 0 then v.(pad1 := pad) else v.(pad2 := pad))
    case NmiStatusPort => (NmiStatus(v.ppu.fields), v.(ppu := v.ppu.(fields := v.ppu.fields.(nmiFlag := false))))
    case HvbjoyPort => (HvbjoyStatus(v.ppu.fields), v)
    case TimeUpPort => (if v.st.irqFlag then 0x80 else 0, v.(st := v.st.(irqFlag := false, irqPending := false)))
    case IoRegister(i) => (v.io[i], v)
    case DmaRegister(i) => (v.dma[i], v)
    case CartridgeSpace(bank, address) => (CartridgeByte(cart.header.layout, cart.rom, v.sram, bank, address), v)
  }

  /** `read(address)`: the byte at the decoded target, which also becomes the open-bus byte. */
  function ReadAt(v: BusView, cart: SNESCartridge, address: int): (r: (byte, BusView))
    requires Sized(v, cart)
    ensures Sized(r.1, cart) && SameClock(r.1, v) && r.1.st.openBus == r.0
    ensures r.1.wram == v.wram && r.1.io == v.io && r.1.dma == v.dma && r.1.audio == v.audio
    ensures r.1.hdma == v.hdma && r.1.sram == v.sram
  {
    var (b, w) := Fetched(v, cart, ReadTargetOf(address));
    (b, w.(st := w.st.(openBus := b)))
  }

  // Writes

  /** A byte stored in the I/O registers 0x4200-0x420F; NMITIMEN (0x4200) also sets the PPU's NMI enable and may drop the IRQ. */
  function IoStored(v: BusView, i: nat, b: byte): (r: BusView)
    requires |v.io| == IO_REGISTER_COUNT && i < IO_REGISTER_COUNT
    ensures r.io == IoAfterWrite(v.io, i, b) && r.wram == v.wram && r.dma == v.dma && r.hdma == v.hdma
    ensures SameClock(r, v) && r.st.openBus == v.st.openBus
  {
    var w := v.(io := IoAfterWrite(v.io, i, b));
    if i == 0 then
      w.(ppu := w.ppu.(fields := w.ppu.fields.(nmiEnabled := b >= 0x80)),
         st := if (b / 0x10) % 4 == 0 then w.st.(irqFlag := false, irqPending := false) else w.st)
    else w
  }

  /** A byte stored at a decoded write target. */
  function Stored(v: BusView, cart: SNESCartridge, t: Target, b: byte): (r: BusView)
    requires Sized(v, cart) && InRange(t)
    ensures Sized(r, cart) && SameClock(r, v) && r.hdma == v.hdma && r.st.openBus == v.st.openBus
  {
    match t
    case WorkRam(o) => v.(wram := v.wram[o := b])
    case PpuPort(i) => v.(ppu := ViewWritten(v.ppu, i, b))
    case AudioPort(i) => v.(audio := v.audio.(toSpc := v.audio.toSpc[i := b]))
    case WramDataPort(p) =>
      v.(wram := WramAfterPortWrite(v.wram, v.st.wramPortAddress, p, b),
         st := v.st.(wramPortAddress := WramAddressAfterWrite(v.st.wramPortAddress, p, b)))
    case JoypadPort(_) =>
      var strobe := b % 2 == 1;
      v.(st := v.st.(joypadStrobe := strobe), pad1 := Strobed(v.pad1, strobe), pad2 := Strobed(v.pad2, strobe))
    case DmaRegister(i) => v.(dma := v.dma[i := b])
    case IoRegister(i) => IoStored(v, i, b)
    case CartridgeSpace(bank, address) => v.(sram := SramAfterWrite(cart.header.layout, v.sram, bank, address, b))
    case _ => v
  }

  /**
   * `write(address, value)` without starting a DMA: the byte is the open-bus
   * byte and goes to the decoded target.
   */
  function StoreAt(v: BusView, cart: SNESCartridge, address: int, value: int): (r: BusView)
    requires Sized(v, cart)
    ensures Sized(r, cart) && SameClock(r, v) && r.hdma == v.hdma && r.st.openBus == value % 0x100
  {
    var b := value % 0x100;
    Stored(v.(st := v.st.(openBus := b)), cart, WriteTargetOf(address), b)
  }

  // General DMA

  /** One byte of a DMA transfer: read on one bus, written on the other. */
  function TransferByte(v: BusView, cart: SNESCartridge, t: DmaTransfer): (r: BusView)
    requires Sized(v, cart)
    ensures Sized(r, cart) && SameClock(r, v) && r.hdma == v.hdma
  {
    if !t.bToA then
      var (b, w) := ReadAt(v, cart, t.aAddress);
      StoreAt(w, cart, t.bAddress, b)
    else
      var (b, w) := ReadAt(v, cart, t.bAddress);
      StoreAt(w, cart, t.aAddress, b)
  }

  /**
   * A B-to-A byte whose A-bus address is MDMAEN (00:420B) is only stored in
   * the I/O register file: the model starts no nested DMA and charges no
   * cycles for it, where the source's `write` starts one.
   */
  lemma TransferToMdmaenOnlyStores(v: BusView, cart: SNESCartridge, t: DmaTransfer)
    requires Sized(v, cart) && t.bToA && WriteTargetOf(t.aAddress) == IoRegister(0x0b)
    ensures var rd := ReadAt(v, cart, t.bAddress);
      TransferByte(v, cart, t) == rd.1.(io := rd.1.io[0x0b := rd.0], st := rd.1.st.(openBus := rd.0))
  {
  }

  /** The bus after the first `n` transfers of channel `channel`, planned from `regs`. */
  function Moved(v: BusView, cart: SNESCartridge, regs: seq<byte>, channel: nat, n: nat): (r: BusView)
    requires Sized(v, cart) && |regs| == DMA_REGISTER_COUNT && channel < CHANNELS
    ensures Sized(r, cart) && SameClock(r, v) && r.hdma == v.hdma
    decreases n, 0
  {
    if n == 0 then v else MovedOn(v, cart, regs, channel, n - 1)
  }

  /** The bus after transfer `n` of the plan. */
  function MovedOn(v: BusView, cart: SNESCartridge, regs: seq<byte>, channel: nat, n: nat): (r: BusView)
    requires Sized(v, cart) && |regs| == DMA_REGISTER_COUNT && channel < CHANNELS
    ensures Sized(r, cart) && SameClock(r, v) && r.hdma == v.hdma
    decreases n, 2
  {
    MovedBy(v, cart, regs, channel, n, PlanTransfer(regs, channel, n))
  }

  /** Transfer `t` made on the bus after the first `n` transfers of the plan. */
  function MovedBy(v: BusView, cart: SNESCartridge, regs: seq<byte>, channel: nat, n: nat, t: DmaTransfer): (r: BusView)
    requires Sized(v, cart) && |regs| == DMA_REGISTER_COUNT && channel < CHANNELS
    ensures Sized(r, cart) && SameClock(r, v) && r.hdma == v.hdma
    decreases n, 1
  {
    TransferByte(Moved(v, cart, regs, channel, n), cart, t)
  }

  /** One more transfer is one more `TransferByte`. */
  lemma MovedNext(v: BusView, cart: SNESCartridge, regs: seq<byte>, channel: nat, n: nat)
    requires Sized(v, cart) && |regs| == DMA_REGISTER_COUNT && channel < CHANNELS
    ensures Moved(v, cart, regs, channel, n + 1) == TransferByte(Moved(v, cart, regs, channel, n), cart, PlanTransfer(regs, channel, n))
  {
    assert Moved(v, cart, regs, channel, n + 1) == MovedOn(v, cart, regs, channel, n)
      == MovedBy(v, cart, regs, channel, n, PlanTransfer(regs, channel, n));
  }

  /** `ChannelRun` in terms of the bus after the whole plan. */
  lemma ChannelRunBy(v: BusView, cart: SNESCartridge, channel: nat, w: BusView)
    requires Sized(v, cart) && channel < CHANNELS
    requires w == Moved(v, cart, v.dma, channel, DmaSize(v.dma, channel))
    ensures var base := channel * 0x10;
      var a1t := A1tAfter(v.dma[base], WordOf(v.dma[base + 2], v.dma[base + 3]), DmaSize(v.dma, channel));
      ChannelRun(v, cart, channel) == w.(dma := WithWordAt(WithWordAt(w.dma, base + 2, a1t), base + 5, 0))
  {
  }

  /**
   * `#runDMAChannel`: every transfer of the channel's plan, then A1T holds
   * the address after the last byte and DAS reads 0.
   */
  function ChannelRun(v: BusView, cart: SNESCartridge, channel: nat): (r: BusView)
    requires Sized(v, cart) && channel < CHANNELS
    ensures Sized(r, cart) && SameClock(r, v) && r.hdma == v.hdma
  {
    var base := channel * 0x10;
    var size := DmaSize(v.dma, channel);
    var w := Moved(v, cart, v.dma, channel, size);
    var a1t := A1tAfter(v.dma[base], WordOf(v.dma[base + 2], v.dma[base + 3]), size);
    w.(dma := WithWordAt(WithWordAt(w.dma, base + 2, a1t), base + 5, 0))
  }

  /** The listed channels run in order: the bus after them and the number of bytes they moved. */
  function ChannelsRun(v: BusView, cart: SNESCartridge, channels: seq<nat>): (r: (BusView, nat))
    requires Sized(v, cart) && forall i :: 0 <= i < |channels| ==> channels[i] < CHANNELS
    ensures Sized(r.0, cart) && SameClock(r.0, v) && r.0.hdma == v.hdma
    ensures |channels| <= r.1 <= |channels| * 0x1_0000
    decreases |channels|
  {
    if |channels| == 0 then (v, 0)
    else
      var size := DmaSize(v.dma, channels[0]);
      var first := ChannelRun(v, cart, channels[0]);
      var (w, n) := ChannelsRun(first, cart, channels[1..]);
      (w, size + n)
  }

  /** `#startDMA(mask)`: the channels whose MDMAEN bits are set, in ascending order. */
  function DmaStarted(v: BusView, cart: SNESCartridge, mask: byte): (r: (BusView, nat))
    requires Sized(v, cart)
    ensures Sized(r.0, cart) && SameClock(r.0, v) && r.0.hdma == v.hdma
  {
    ChannelsRun(v, cart, SelectedChannels(mask, 0))
  }

  /** Part way through `#startDMA(mask)`: the bus is `w` and `moved` bytes have gone before channel `channel`. */
  ghost predicate StartedUpTo(v: BusView, cart: SNESCartridge, mask: byte, channel: nat, w: BusView, moved: nat)
    requires Sized(v, cart) && Sized(w, cart) && channel <= CHANNELS
  {
    && DmaStarted(v, cart, mask).0 == ChannelsRun(w, cart, SelectedChannels(mask, channel)).0
    && DmaStarted(v, cart, mask).1 == moved + ChannelsRun(w, cart, SelectedChannels(mask, channel)).1
  }

  /** Channel `channel` of `#startDMA(mask)` runs exactly when its MDMAEN bit is set. */
  lemma StartedUpToNext(v: BusView, cart: SNESCartridge, mask: byte, channel: nat, w: BusView, moved: nat)
    requires Sized(v, cart) && Sized(w, cart) && channel < CHANNELS
    requires StartedUpTo(v, cart, mask, channel, w, moved)
    ensures ChannelEnabled(mask, channel) ==>
      StartedUpTo(v, cart, mask, channel + 1, ChannelRun(w, cart, channel), moved + DmaSize(w.dma, channel))
    ensures !ChannelEnabled(mask, channel) ==> StartedUpTo(v, cart, mask, channel + 1, w, moved)
  {
  }

  /** After the last channel, the bus and the byte count are those of `#startDMA(mask)`. */
  lemma StartedUpToEnd(v: BusView, cart: SNESCartridge, mask: byte, w: BusView, moved: nat)
    requires Sized(v, cart) && Sized(w, cart) && StartedUpTo(v, cart, mask, CHANNELS, w, moved)
    ensures DmaStarted(v, cart, mask).0 == w && DmaStarted(v, cart, mask).1 == moved
  {
  }

  // HDMA

  /** Bit `c` of the HDMAEN or MDMAEN mask. */
  predicate ChannelEnabled(mask: byte, c: nat)
  {
    (mask / Pow2(c)) % 2 == 1
  }

  /**
   * `#initializeHDMA`: a channel enabled in HDMAEN (0x420C) restarts at A1T
   * with its indirect address from DAS; a disabled one goes idle and keeps
   * its addresses.
   */
  function HdmaInitialized(v: BusView): (r: BusView)
    requires |v.io| == IO_REGISTER_COUNT && |v.dma| == DMA_REGISTER_COUNT && HdmaSized(v.hdma)
    ensures r == v.(hdma := r.hdma) && HdmaSized(r.hdma)
  {
    var mask := v.io[0x0c];
    var h := v.hdma;
    v.(hdma := Hdma(
      seq(CHANNELS, c requires 0 <= c => if ChannelEnabled(mask, c) then 1 else 0),
      seq(CHANNELS, _ => 0),
      seq(CHANNELS, c requires 0 <= c => if ChannelEnabled(mask, c) then 1 else 0),
      seq(CHANNELS, _ => 0),
      seq(CHANNELS, c requires 0 <= c < CHANNELS =>
        if ChannelEnabled(mask, c) then WordOf(v.dma[c * 0x10 + 2], v.dma[c * 0x10 + 3]) else h.table[c]),
      seq(CHANNELS, c requires 0 <= c < CHANNELS =>
        if ChannelEnabled(mask, c) then WordOf(v.dma[c * 0x10 + 5], v.dma[c * 0x10 + 6]) else h.indirect[c])))
  }

  /**
   * `#reloadHDMAChannel`: the line header at A1B:table; an indirect channel
   * (DMAP bit 6) with a non-zero header also reads the two-byte indirect
   * address, which DAS (registers 5/6) takes as well.
   */
  function HdmaReloaded(v: BusView, cart: SNESCartridge, c: nat): (r: BusView)
    requires Sized(v, cart) && c < CHANNELS
    ensures Sized(r, cart) && SameClock(r, v)
  {
    AfterHeader(v, cart, c, ReadAt(v, cart, v.dma[c * 0x10 + 4] as int * 0x1_0000 + v.hdma.table[c]))
  }

  /** The rest of a reload once the header byte has been read into `read`. */
  function AfterHeader(v: BusView, cart: SNESCartridge, c: nat, read: (byte, BusView)): (r: BusView)
    requires Sized(v, cart) && Sized(read.1, cart) && c < CHANNELS && SameClock(read.1, v) && read.1.dma == v.dma
    ensures Sized(r, cart) && SameClock(r, v)
    ensures read.0 != 0 && IndirectMode(v.dma, c) ==>
      r.hdma == IndirectLoaded(HeaderLoaded(v.hdma, c, read.0), c, WordOf(r.dma[c * 0x10 + 5], r.dma[c * 0x10 + 6]))
    ensures read.0 == 0 || !IndirectMode(v.dma, c) ==> r.hdma == HeaderLoaded(v.hdma, c, read.0)
  {
    var loaded := read.1.(hdma := HeaderLoaded(v.hdma, c, read.0));
    if read.0 != 0 && IndirectMode(v.dma, c) then IndirectReloaded(loaded, cart, c) else loaded
  }

  /** An indirect channel's reload, after the header: the two bytes at A1B:table become the indirect address and DAS. */
  function IndirectReloaded(v: BusView, cart: SNESCartridge, c: nat): (r: BusView)
    requires Sized(v, cart) && c < CHANNELS
    ensures Sized(r, cart) && SameClock(r, v)
    ensures r.hdma == IndirectLoaded(v.hdma, c, WordOf(r.dma[c * 0x10 + 5], r.dma[c * 0x10 + 6]))
  {
    var base := c * 0x10;
    var bank: int := v.dma[base + 4];
    var next: int := v.hdma.table[c];
    var (low, x) := ReadAt(v, cart, bank * 0x1_0000 + next);
    var (high, y) := ReadAt(x, cart, bank * 0x1_0000 + (next + 1) % 0x1_0000);
    var dma := y.dma[base + 5 := low][base + 6 := high];
    assert WordOf(dma[base + 5], dma[base + 6]) == WordOf(low, high);
    y.(hdma := IndirectLoaded(y.hdma, c, WordOf(low, high)), dma := dma)
  }

  /**
   * What a reload does to the HDMA state: the line is loaded from the
   * header, and a live indirect channel also takes the indirect address,
   * which DAS holds too.
   */
  lemma HdmaReloadedLoads(v: BusView, cart: SNESCartridge, c: nat)
    requires Sized(v, cart) && c < CHANNELS
    ensures var r := HdmaReloaded(v, cart, c); var header := HeaderOf(v, cart, c);
      header != 0 && IndirectMode(v.dma, c) ==>
        r.hdma == IndirectLoaded(HeaderLoaded(v.hdma, c, header), c, WordOf(r.dma[c * 0x10 + 5], r.dma[c * 0x10 + 6]))
    ensures var r := HdmaReloaded(v, cart, c); var header := HeaderOf(v, cart, c);
      header == 0 || !IndirectMode(v.dma, c) ==> r.hdma == HeaderLoaded(v.hdma, c, header)
  {
  }

  /** `HdmaReloaded` when the header ends the table or the channel is direct: only the header is loaded. */
  lemma ReloadedDirect(v: BusView, cart: SNESCartridge, c: nat, header: byte, read: BusView)
    requires Sized(v, cart) && c < CHANNELS
    requires ReadAt(v, cart, v.dma[c * 0x10 + 4] as int * 0x1_0000 + v.hdma.table[c]) == (header, read)
    requires header == 0 || !IndirectMode(v.dma, c)
    ensures HdmaReloaded(v, cart, c) == read.(hdma := HeaderLoaded(v.hdma, c, header))
  {
    var rd := ReadAt(v, cart, v.dma[c * 0x10 + 4] as int * 0x1_0000 + v.hdma.table[c]);
    assert rd.0 == header && rd.1 == read;
    assert HdmaReloaded(v, cart, c) == AfterHeader(v, cart, c, rd);
  }

  /** `HdmaReloaded` of a live indirect channel: the header, then the indirect address. */
  lemma ReloadedIndirect(v: BusView, cart: SNESCartridge, c: nat, header: byte, read: BusView)
    requires Sized(v, cart) && c < CHANNELS
    requires ReadAt(v, cart, v.dma[c * 0x10 + 4] as int * 0x1_0000 + v.hdma.table[c]) == (header, read)
    requires header != 0 && IndirectMode(v.dma, c)
    ensures HdmaReloaded(v, cart, c) == IndirectReloaded(read.(hdma := HeaderLoaded(v.hdma, c, header)), cart, c)
  {
    ReloadedAfter(v, cart, c, header, read);
    AfterHeaderIndirect(v, cart, c, header, read);
  }

  /** A reload is the rest of the reload after the header byte read at A1B:table. */
  lemma ReloadedAfter(v: BusView, cart: SNESCartridge, c: nat, header: byte, read: BusView)
    requires Sized(v, cart) && c < CHANNELS
    requires ReadAt(v, cart, v.dma[c * 0x10 + 4] as int * 0x1_0000 + v.hdma.table[c]).0 == header
    requires ReadAt(v, cart, v.dma[c * 0x10 + 4] as int * 0x1_0000 + v.hdma.table[c]).1 == read
    ensures HdmaReloaded(v, cart, c) == AfterHeader(v, cart, c, (header, read))
  {
    var rd := ReadAt(v, cart, v.dma[c * 0x10 + 4] as int * 0x1_0000 + v.hdma.table[c]);
    assert HdmaReloaded(v, cart, c) == AfterHeader(v, cart, c, rd);
    assert rd == (header, read);
  }

  /** The rest of a live indirect channel's reload is the indirect address read after the header. */
  lemma AfterHeaderIndirect(v: BusView, cart: SNESCartridge, c: nat, header: byte, read: BusView)
    requires Sized(v, cart) && Sized(read, cart) && c < CHANNELS && SameClock(read, v) && read.dma == v.dma
    requires header != 0 && IndirectMode(v.dma, c)
    ensures AfterHeader(v, cart, c, (header, read)) == IndirectReloaded(read.(hdma := HeaderLoaded(v.hdma, c, header)), cart, c)
  {
  }

  /** `IndirectReloaded` in terms of the two address bytes read and the views after them. */
  lemma IndirectReloadedBy(v: BusView, cart: SNESCartridge, c: nat, low: byte, x: BusView, high: byte, y: BusView)
    requires Sized(v, cart) && c < CHANNELS
    requires ReadAt(v, cart, v.dma[c * 0x10 + 4] as int * 0x1_0000 + v.hdma.table[c]) == (low, x)
    requires ReadAt(x, cart, v.dma[c * 0x10 + 4] as int * 0x1_0000 + (v.hdma.table[c] as int + 1) % 0x1_0000) == (high, y)
    ensures IndirectReloaded(v, cart, c)
      == y.(hdma := IndirectLoaded(y.hdma, c, WordOf(low, high)), dma := y.dma[c * 0x10 + 5 := low][c * 0x10 + 6 := high])
  {
  }

  /** The line header a reload of channel `c` reads, at A1B:table. */
  function HeaderOf(v: BusView, cart: SNESCartridge, c: nat): byte
    requires Sized(v, cart) && c < CHANNELS
  {
    ReadAt(v, cart, v.dma[c * 0x10 + 4] as int * 0x1_0000 + v.hdma.table[c]).0
  }

  /** DMAP bit 6: the channel's table holds indirect addresses. */
  predicate IndirectMode(dma: seq<byte>, c: nat)
    requires |dma| == DMA_REGISTER_COUNT && c < CHANNELS
  {
    (dma[c * 0x10] / 0x40) % 2 == 1
  }

  /** The HDMA arrays after a line header is read: the line loaded from it, the table address past it. */
  function HeaderLoaded(h: Hdma, c: nat, header: byte): (r: Hdma)
    requires HdmaSized(h) && c < CHANNELS
    ensures HdmaSized(r)
  {
    WithLine(h.(table := h.table[c := (h.table[c] as int + 1) % 0x1_0000]), c, Reloaded(LineOf(h, c), header))
  }

  /** The HDMA arrays after an indirect channel reads its two-byte indirect address from the table. */
  function IndirectLoaded(h: Hdma, c: nat, address: word): (r: Hdma)
    requires HdmaSized(h) && c < CHANNELS
    ensures HdmaSized(r)
  {
    h.(indirect := h.indirect[c := address], table := h.table[c := (h.table[c] as int + 2) % 0x1_0000])
  }

  /**
   * A reload loads channel `c`'s line from the header and moves its table
   * address past the header, and in indirect mode past the indirect address
   * too; no other channel changes.
   */
  lemma ReloadAddresses(h: Hdma, c: nat, header: byte, address: word)
    requires HdmaSized(h) && c < CHANNELS
    ensures var loaded := HeaderLoaded(h, c, header);
      var indirect := IndirectLoaded(loaded, c, address);
      && LineOf(loaded, c) == Reloaded(LineOf(h, c), header) && LineOf(indirect, c) == LineOf(loaded, c)
      && loaded.table[c] == (h.table[c] as int + 1) % 0x1_0000 && loaded.indirect == h.indirect
      && indirect.table[c] == (h.table[c] as int + 3) % 0x1_0000 && indirect.indirect[c] == address
      && forall d :: 0 <= d < CHANNELS && d != c ==>
           && LineOf(loaded, d) == LineOf(h, d) && LineOf(indirect, d) == LineOf(h, d)
           && loaded.table[d] == h.table[d] && indirect.table[d] == h.table[d] && indirect.indirect[d] == h.indirect[d]
  {
    AddMod(h.table[c] as int + 1, 2, 0x1_0000);
  }

  /** The registers `#transferHDMAChannel` reads once, before its loop. */
  datatype HdmaSetup = HdmaSetup(dmap: byte, bbad: byte, sourceBank: byte, indirectBank: byte)

  function SetupOf(dma: seq<byte>, c: nat): HdmaSetup
    requires |dma| == DMA_REGISTER_COUNT && c < CHANNELS
  {
    HdmaSetup(dma[c * 0x10], dma[c * 0x10 + 1], dma[c * 0x10 + 4], dma[c * 0x10 + 7])
  }

  /** Unit `index` of an HDMA transfer: the source is the indirect address (DMAP bit 6) or the table, which moves on by one. */
  function HdmaUnit(v: BusView, cart: SNESCartridge, c: nat, s: HdmaSetup, index: nat): (r: BusView)
    requires Sized(v, cart) && c < CHANNELS && index < |Pattern(s.dmap)|
    ensures Sized(r, cart) && SameClock(r, v)
    ensures r.hdma == Advanced(v.hdma, c, (s.dmap / 0x40) % 2 == 1, 1)
  {
    TransferByte(v.(hdma := Advanced(v.hdma, c, (s.dmap / 0x40) % 2 == 1, 1)), cart,
                 UnitTransfer(s, index, v.hdma.indirect[c], v.hdma.table[c]))
  }

  /** The byte moved by unit `index`: from the indirect address (DMAP bit 6) or the table, to BBAD plus the pattern's offset. */
  function UnitTransfer(s: HdmaSetup, index: nat, indirectAddress: word, tableAddress: word): (t: DmaTransfer)
    requires index < |Pattern(s.dmap)|
    ensures 0x2100 <= t.bAddress <= 0x21ff && t.bToA == (s.dmap >= 0x80)
  {
    var bAddress := 0x2100 + (s.bbad as int + Pattern(s.dmap)[index]) % 0x100;
    var source := if (s.dmap / 0x40) % 2 == 1 then s.indirectBank as int * 0x1_0000 + indirectAddress
                  else s.sourceBank as int * 0x1_0000 + tableAddress;
    DmaTransfer(source, bAddress, s.dmap >= 0x80)
  }

  /** Channel `c`'s indirect address (indirect mode) or table address moved on by `k` bytes within its bank. */
  function Advanced(h: Hdma, c: nat, indirect: bool, k: nat): (r: Hdma)
    requires HdmaSized(h) && c < CHANNELS
    ensures HdmaSized(r)
  {
    if indirect then h.(indirect := h.indirect[c := (h.indirect[c] + k) % 0x1_0000])
    else h.(table := h.table[c := (h.table[c] + k) % 0x1_0000])
  }

  /** Moving on by `k` and then by one is moving on by `k + 1`. */
  lemma AdvancedTwice(h: Hdma, c: nat, indirect: bool, k: nat)
    requires HdmaSized(h) && c < CHANNELS
    ensures Advanced(Advanced(h, c, indirect, k), c, indirect, 1) == Advanced(h, c, indirect, k + 1)
  {
    AddMod(h.indirect[c] + k, 1, 0x1_0000);
    AddMod(h.table[c] + k, 1, 0x1_0000);
  }

  /** The bus after the first `n` units of an HDMA transfer. */
  function HdmaUnits(v: BusView, cart: SNESCartridge, c: nat, s: HdmaSetup, n: nat): (r: BusView)
    requires Sized(v, cart) && c < CHANNELS && n <= |Pattern(s.dmap)|
    ensures Sized(r, cart) && SameClock(r, v)
    ensures r.hdma == Advanced(v.hdma, c, (s.dmap / 0x40) % 2 == 1, n)
    decreases n, 0
  {
    if n == 0 then
      assert v.hdma.indirect[c := v.hdma.indirect[c]] == v.hdma.indirect;
      assert v.hdma.table[c := v.hdma.table[c]] == v.hdma.table;
      v
    else HdmaUnitsOn(v, cart, c, s, n - 1)
  }

  /** The bus after unit `n` of an HDMA transfer. */
  function HdmaUnitsOn(v: BusView, cart: SNESCartridge, c: nat, s: HdmaSetup, n: nat): (r: BusView)
    requires Sized(v, cart) && c < CHANNELS && n < |Pattern(s.dmap)|
    ensures Sized(r, cart) && SameClock(r, v)
    ensures r.hdma == Advanced(v.hdma, c, (s.dmap / 0x40) % 2 == 1, n + 1)
    decreases n, 2
  {
    HdmaUnitsBy(v, cart, c, s, n, HdmaUnits(v, cart, c, s, n).hdma)
  }

  /** Unit `n` of an HDMA transfer made after the first `n`, whose table or indirect address are in `h`. */
  function HdmaUnitsBy(v: BusView, cart: SNESCartridge, c: nat, s: HdmaSetup, n: nat, h: Hdma): (r: BusView)
    requires Sized(v, cart) && c < CHANNELS && n < |Pattern(s.dmap)|
    requires h == Advanced(v.hdma, c, (s.dmap / 0x40) % 2 == 1, n)
    ensures Sized(r, cart) && SameClock(r, v)
    ensures r.hdma == Advanced(v.hdma, c, (s.dmap / 0x40) % 2 == 1, n + 1)
    decreases n, 1
  {
    AdvancedTwice(v.hdma, c, (s.dmap / 0x40) % 2 == 1, n);
    HdmaUnit(HdmaUnits(v, cart, c, s, n), cart, c, s, n)
  }

  /** One more unit of an HDMA transfer. */
  lemma HdmaUnitsNext(v: BusView, cart: SNESCartridge, c: nat, s: HdmaSetup, n: nat)
    requires Sized(v, cart) && c < CHANNELS && n < |Pattern(s.dmap)|
    ensures HdmaUnits(v, cart, c, s, n + 1) == HdmaUnit(HdmaUnits(v, cart, c, s, n), cart, c, s, n)
  {
    assert HdmaUnits(v, cart, c, s, n + 1) == HdmaUnitsOn(v, cart, c, s, n)
      == HdmaUnitsBy(v, cart, c, s, n, HdmaUnits(v, cart, c, s, n).hdma);
  }

  /** `#transferHDMAChannel`: one unit per entry of the mode's pattern. */
  function HdmaTransferred(v: BusView, cart: SNESCartridge, c: nat): (r: BusView)
    requires Sized(v, cart) && c < CHANNELS
    ensures Sized(r, cart) && SameClock(r, v)
    ensures r.hdma == Advanced(v.hdma, c, IndirectMode(v.dma, c), |Pattern(v.dma[c * 0x10])|)
  {
    var s := SetupOf(v.dma, c);
    HdmaUnits(v, cart, c, s, |Pattern(s.dmap)|)
  }

  /**
   * `#runHDMAScanline` for one channel: an active channel reloads when its
   * counter is 0, transfers when its flag is set, and counts the line down.
   */
  function HdmaChannelLine(v: BusView, cart: SNESCartridge, c: nat): (r: BusView)
    requires Sized(v, cart) && c < CHANNELS
    ensures Sized(r, cart) && SameClock(r, v)
  {
    if v.hdma.active[c] == 0 then v
    else
      var w := if v.hdma.counter[c] == 0 then HdmaReloaded(v, cart, c) else v;
      if w.hdma.active[c] == 0 then w
      else
        var x := if w.hdma.doTransfer[c] != 0 then HdmaTransferred(w, cart, c) else w;
        x.(hdma := WithLine(x.hdma, c, CountedDown(LineOf(x.hdma, c))))
  }

  /** The bus after channels `0` to `n - 1` of a scanline. */
  function HdmaChannels(v: BusView, cart: SNESCartridge, n: nat): (r: BusView)
    requires Sized(v, cart) && n <= CHANNELS
    ensures Sized(r, cart) && SameClock(r, v)
    decreases n, 0
  {
    if n == 0 then v else HdmaChannelsOn(v, cart, n - 1)
  }

  /** The bus after channel `c` of a scanline. */
  function HdmaChannelsOn(v: BusView, cart: SNESCartridge, c: nat): (r: BusView)
    requires Sized(v, cart) && c < CHANNELS
    ensures Sized(r, cart) && SameClock(r, v)
    decreases c, 2
  {
    HdmaChannelsBy(v, cart, c, c)
  }

  /** Channel `line` of a scanline run after channels `0` to `c - 1`; `line` is `c`. */
  function HdmaChannelsBy(v: BusView, cart: SNESCartridge, c: nat, line: nat): (r: BusView)
    requires Sized(v, cart) && c < CHANNELS && line == c
    ensures Sized(r, cart) && SameClock(r, v)
    decreases c, 1
  {
    HdmaChannelLine(HdmaChannels(v, cart, c), cart, line)
  }

  /** One more channel of a scanline. */
  lemma HdmaChannelsNext(v: BusView, cart: SNESCartridge, c: nat)
    requires Sized(v, cart) && c < CHANNELS
    ensures HdmaChannels(v, cart, c + 1) == HdmaChannelLine(HdmaChannels(v, cart, c), cart, c)
  {
    assert HdmaChannels(v, cart, c + 1) == HdmaChannelsOn(v, cart, c) == HdmaChannelsBy(v, cart, c, c);
  }

  /** One line of `#clockHDMA`'s walk: line 0 re-initialises HDMA; each visible line runs it and latches the PPU's line state. */
  function HdmaVisit(v: BusView, cart: SNESCartridge, y: nat): (r: BusView)
    requires Sized(v, cart)
    ensures Sized(r, cart) && SameClock(r, v)
  {
    var w := if y == 0 then HdmaInitialized(v) else v;
    if y < VISIBLE_SCANLINES then
      var x := HdmaChannels(w, cart, CHANNELS);
      x.(ppu := ViewLatched(x.ppu, y))
    else w
  }

  /** `#clockHDMA` over the lines of a walk, in order. */
  function HdmaOver(v: BusView, cart: SNESCartridge, lines: seq<nat>): (r: BusView)
    requires Sized(v, cart)
    ensures Sized(r, cart) && SameClock(r, v)
    decreases |lines|, 2
  {
    if |lines| == 0 then v else HdmaOverOn(v, cart, lines[..|lines| - 1], lines[|lines| - 1])
  }

  /** The walk `lines` and then line `y`. */
  function HdmaOverOn(v: BusView, cart: SNESCartridge, lines: seq<nat>, y: nat): (r: BusView)
    requires Sized(v, cart)
    ensures Sized(r, cart) && SameClock(r, v)
    decreases |lines| + 1, 1
  {
    HdmaOverBy(v, cart, lines, y, |lines|)
  }

  /** Line `y` visited after the walk `lines`, which has `n` lines. */
  function HdmaOverBy(v: BusView, cart: SNESCartridge, lines: seq<nat>, y: nat, n: nat): (r: BusView)
    requires Sized(v, cart) && n == |lines|
    ensures Sized(r, cart) && SameClock(r, v)
    decreases n + 1, 0
  {
    HdmaVisit(HdmaOver(v, cart, lines), cart, y)
  }

  /** A walk one line longer visits that line last. */
  lemma HdmaOverAppend(v: BusView, cart: SNESCartridge, lines: seq<nat>, y: nat)
    requires Sized(v, cart)
    ensures HdmaOver(v, cart, lines + [y]) == HdmaVisit(HdmaOver(v, cart, lines), cart, y)
  {
    assert (lines + [y])[..|lines|] == lines;
    assert HdmaOver(v, cart, lines + [y]) == HdmaOverOn(v, cart, lines, y) == HdmaOverBy(v, cart, lines, y, |lines|);
  }

  // Timer IRQ, auto-joypad, clock

  /** `#updateIRQ`: a step past the programmed H/V position raises the timer IRQ. */
  function IrqUpdated(v: BusView, beforeFrame: nat, beforeScanline: nat, beforeCycle: nat): (r: BusView)
    requires |v.io| == IO_REGISTER_COUNT
    ensures r == v.(st := r.st) && r.st == v.st.(irqFlag := r.st.irqFlag, irqPending := r.st.irqPending)
  {
    var f := v.ppu.fields;
    if IrqTriggered(v.io, AbsoluteCycle(beforeFrame, beforeScanline, beforeCycle), AbsoluteCycle(f.frame, f.scanline, f.cycle))
    then v.(st := v.st.(irqFlag := true, irqPending := true))
    else v
  }

  /** JOY1L-JOY4H (0x4218-0x421F): both auto-joypad words, then zeros for players 3 and 4. */
  function JoypadRegisters(io: seq<byte>, word1: word, word2: word): (r: seq<byte>)
    requires |io| == IO_REGISTER_COUNT
    ensures |r| == IO_REGISTER_COUNT
    ensures WordOf(r[0x18], r[0x19]) == word1 && WordOf(r[0x1a], r[0x1b]) == word2
    ensures r[0x1c] == 0 && r[0x1d] == 0 && r[0x1e] == 0 && r[0x1f] == 0
    ensures forall i :: 0 <= i < IO_REGISTER_COUNT && !(0x18 <= i <= 0x1f) ==> r[i] == io[i]
  {
    WithWordAt(WithWordAt(io, 0x18, word1), 0x1a, word2)[0x1c := 0][0x1d := 0][0x1e := 0][0x1f := 0]
  }

  /** `#autoJoypadPoll`: with NMITIMEN bit 0 set both controllers latch and their words reach 0x4218-0x421B. */
  function AutoJoypadPolled(v: BusView): (r: BusView)
    requires |v.io| == IO_REGISTER_COUNT
    ensures r == v.(io := r.io, pad1 := r.pad1, pad2 := r.pad2) && |r.io| == IO_REGISTER_COUNT
  {
    if v.io[0] % 2 == 0 then v
    else
      var pad1, pad2 := PadLatched(v.pad1), PadLatched(v.pad2);
      v.(pad1 := pad1, pad2 := pad2,
         io := JoypadRegisters(v.io, AutoJoypadWord(pad1.latched % 0x1000), AutoJoypadWord(pad2.latched % 0x1000)))
  }

  /** The lines the HDMA walk visits after a PPU step from `before`. */
  function LinesAfterStep(before: PpuFields, step: nat): (r: seq<nat>)
    requires InFrame(before)
  {
    var after := ClockedFields(before, step);
    ClockReachable(before, step);
    Walk(before.frame, before.scanline, after.frame, after.scanline)
  }

  /**
   * `clock(cpuCycles)`: the CPU count grows by `cpuCycles >>> 0`; the PPU
   * runs six master cycles per CPU cycle; crossing line 225 polls the
   * joypads; then HDMA runs over the lines passed and the timer IRQ is
   * checked against the step.
   */
  function Clocked(v: BusView, cart: SNESCartridge, cpuCycles: int): (r: BusView)
    requires Sized(v, cart) && Timed(v)
    ensures Sized(r, cart) && Timed(r)
  {
    var cycles := cpuCycles % 0x1_0000_0000;
    var before := v.ppu.fields;
    var polled := PolledAfter(before, PpuRan(CpuCharged(v, cycles), cycles * 6));
    var walked := HdmaOver(polled, cart, LinesAfterStep(before, (cycles * 6) % 0x1_0000_0000));
    IrqUpdated(walked, before.frame, before.scanline, before.cycle)
  }

  /** The CPU count grows by `cycles`; nothing else changes. */
  function CpuCharged(v: BusView, cycles: nat): (r: BusView)
    ensures r == v.(st := r.st) && r.st == v.st.(cpuCycles := v.st.cpuCycles + cycles)
  {
    v.(st := v.st.(cpuCycles := v.st.cpuCycles + cycles))
  }

  /** The PPU runs `masterCycles` while the rest of the bus waits. */
  function PpuRan(v: BusView, masterCycles: nat): (r: BusView)
    requires ViewSized(v.ppu)
    ensures r == v.(ppu := r.ppu) && r.ppu == ViewClocked(v.ppu, masterCycles)
  {
    v.(ppu := ViewClocked(v.ppu, masterCycles))
  }

  /** The auto-joypad poll of `clock`: it runs when the step from `before` reached line 225. */
  function PolledAfter(before: PpuFields, v: BusView): (r: BusView)
    requires |v.io| == IO_REGISTER_COUNT
    ensures r == v.(io := r.io, pad1 := r.pad1, pad2 := r.pad2) && |r.io| == IO_REGISTER_COUNT
  {
    var after := v.ppu.fields;
    if CrossedScanline(before.frame, before.scanline, after.frame, after.scanline, VBLANK_START_LINE)
    then AutoJoypadPolled(v) else v
  }

  /**
   * `#consumeDMACycles(n)`: `n >>> 0` bytes cost 8 master cycles each plus
   * 8; the PPU, HDMA and the timer run for them and the CPU count takes a
   * sixth of them.
   */
  function DmaCharged(v: BusView, cart: SNESCartridge, n: nat): (r: BusView)
    requires Sized(v, cart) && Timed(v)
    ensures Sized(r, cart) && Timed(r)
  {
    var bytes := n % 0x1_0000_0000;
    if bytes == 0 then v
    else
      var master := bytes * 8 + 8;
      var before := v.ppu.fields;
      var walked := HdmaOver(PpuRan(v, master), cart, LinesAfterStep(before, master % 0x1_0000_0000));
      CpuCharged(IrqUpdated(walked, before.frame, before.scanline, before.cycle), master / 6)
  }

  /** `DmaCharged` for a non-zero count, in terms of the bus after the HDMA walk. */
  lemma DmaChargedBy(v: BusView, cart: SNESCartridge, n: nat, master: nat, ran: BusView, lines: seq<nat>, walked: BusView)
    requires Sized(v, cart) && Timed(v) && n % 0x1_0000_0000 != 0 && master == (n % 0x1_0000_0000) * 8 + 8
    requires ran == PpuRan(v, master) && lines == LinesAfterStep(v.ppu.fields, master % 0x1_0000_0000)
    requires Sized(ran, cart) && walked == HdmaOver(ran, cart, lines)
    ensures DmaCharged(v, cart, n) ==
      CpuCharged(IrqUpdated(walked, v.ppu.fields.frame, v.ppu.fields.scanline, v.ppu.fields.cycle), master / 6)
  {
  }

  /** `write(address, value)`: the store, and a write to MDMAEN (0x420B) runs the DMA and charges its cycles. */
  function WriteAt(v: BusView, cart: SNESCartridge, address: int, value: int): (r: BusView)
    requires Sized(v, cart) && (WriteTargetOf(address) == IoRegister(0x0b) ==> Timed(v))
    ensures Sized(r, cart) && (Timed(v) ==> Timed(r))
  {
    var w := StoreAt(v, cart, address, value);
    if WriteTargetOf(address) == IoRegister(0x0b) then
      var (x, n) := DmaStarted(w, cart, value % 0x100);
      if n > 0 then DmaCharged(x, cart, n) else x
    else w
  }

  /** `pollIRQ`: reports a pending timer IRQ once and clears it. */
  function IrqPolled(v: BusView): (r: (bool, BusView))
    ensures r.0 == v.st.irqPending && !r.1.st.irqPending && r.1 == v.(st := v.st.(irqPending := false))
  {
    (v.st.irqPending, v.(st := v.st.(irqPending := false)))
  }

  /** `pollNMI`: the PPU reports a pending NMI once and clears it. */
  function NmiPolled(v: BusView): (r: (bool, BusView))
    ensures r.0 == v.ppu.fields.nmiPending && !r.1.ppu.fields.nmiPending
    ensures r.1 == v.(ppu := v.ppu.(fields := v.ppu.fields.(nmiPending := false)))
  {
    (v.ppu.fields.nmiPending, v.(ppu := v.ppu.(fields := v.ppu.fields.(nmiPending := false))))
  }

  // ---------------------------------------------------------------------
  // Properties of bus accesses

  /** A byte stored in work RAM reads back at every address that maps to the same offset. */
  lemma WorkRamRoundTrip(v: BusView, cart: SNESCartridge, address: int, other: int, value: int)
    requires Sized(v, cart)
    requires WramOffset(Bank(address), Offset(address)).Some?
    requires WramOffset(Bank(other), Offset(other)) == WramOffset(Bank(address), Offset(address))
    ensures ReadAt(StoreAt(v, cart, address, value), cart, other).0 == value % 0x100
  {
    var w := StoreAt(v, cart, address, value);
    assert WriteTargetOf(address) == WorkRam(WramOffset(Bank(address), Offset(address)).value);
    assert ReadTargetOf(other) == WorkRam(WramOffset(Bank(address), Offset(address)).value);
  }

  /** A joypad read gives the controller's serial bit in bit 0 and the open-bus byte's other bits. */
  lemma JoypadReadBits(v: BusView, cart: SNESCartridge, address: int)
    requires Sized(v, cart) && ReadTargetOf(address) == JoypadPort(0)
    ensures var (b, w) := ReadAt(v, cart, address);
      && b % 2 == SerialRead(v.pad1).0 && b / 2 == v.st.openBus / 2
      && w.pad1 == SerialRead(v.pad1).1 && w.pad2 == v.pad2
  {
    var bit := SerialRead(v.pad1).0;
    DivModOf((v.st.openBus / 2) * 2 + bit, 2, v.st.openBus / 2, bit);
  }

  /** TIMEUP (0x4211) reads 0x80 while the timer flag is set and acknowledges the IRQ. */
  lemma TimeUpAcknowledges(v: BusView, cart: SNESCartridge)
    requires Sized(v, cart)
    ensures var (b, w) := ReadAt(v, cart, 0x4211);
      && (b == 0x80 <==> v.st.irqFlag) && (b == 0 <==> !v.st.irqFlag)
      && !w.st.irqFlag && !w.st.irqPending
      && ReadAt(w, cart, 0x4211).0 == 0
  {
    assert ReadTargetOf(0x4211) == TimeUpPort;
  }

  /** RDNMI (0x4210) reads the PPU's NMI flag in bit 7 and clears it, so a second read gives 0. */
  lemma NmiStatusAcknowledges(v: BusView, cart: SNESCartridge)
    requires Sized(v, cart)
    ensures var (b, w) := ReadAt(v, cart, 0x4210);
      && (b == 0x80 <==> v.ppu.fields.nmiFlag) && (b == 0 <==> !v.ppu.fields.nmiFlag)
      && ReadAt(w, cart, 0x4210).0 == 0
  {
    assert ReadTargetOf(0x4210) == NmiStatusPort;
  }

  /** Writing WRMPYB (0x4203) makes RDMPYL/RDMPYH (0x4216/0x4217) read the product with WRMPYA. */
  lemma MultiplierReadsProduct(v: BusView, cart: SNESCartridge, value: int)
    requires Sized(v, cart)
    ensures var w := StoreAt(v, cart, 0x4203, value);
      var (low, x) := ReadAt(w, cart, 0x4216);
      WordOf(low, ReadAt(x, cart, 0x4217).0) == v.io[0x02] * (value % 0x100)
  {
    assert WriteTargetOf(0x4203) == IoRegister(0x03);
    assert ReadTargetOf(0x4216) == IoRegister(0x16);
    assert ReadTargetOf(0x4217) == IoRegister(0x17);
  }

  /**
   * Writing WRDIVB (0x4206) makes RDDIVL/RDDIVH (0x4214/0x4215) read the
   * quotient and RDMPYL/RDMPYH (0x4216/0x4217) the remainder of WRDIVL/WRDIVH
   * by the byte written.
   */
  lemma DividerReadsQuotient(v: BusView, cart: SNESCartridge, value: int)
    requires Sized(v, cart)
    ensures var w := StoreAt(v, cart, 0x4206, value);
      var d := Divide(WordOf(v.io[0x04], v.io[0x05]), value % 0x100);
      WordOf(w.io[0x14], w.io[0x15]) == d.quotient && WordOf(w.io[0x16], w.io[0x17]) == d.remainder
      && ReadAt(w, cart, 0x4214).0 == w.io[0x14] && ReadAt(w, cart, 0x4215).0 == w.io[0x15]
      && ReadAt(w, cart, 0x4216).0 == w.io[0x16] && ReadAt(w, cart, 0x4217).0 == w.io[0x17]
  {
    assert WriteTargetOf(0x4206) == IoRegister(0x06);
    assert ReadTargetOf(0x4214) == IoRegister(0x14);
    assert ReadTargetOf(0x4215) == IoRegister(0x15);
    assert ReadTargetOf(0x4216) == IoRegister(0x16);
    assert ReadTargetOf(0x4217) == IoRegister(0x17);
  }

  // ---------------------------------------------------------------------
  // Properties of general DMA

  /** After a channel runs, DAS reads 0 and A1T has moved past the bytes transferred (or stayed, in fixed mode). */
  lemma ChannelRunRegisters(v: BusView, cart: SNESCartridge, channel: nat)
    requires Sized(v, cart) && channel < CHANNELS
    ensures var base := channel * 0x10;
      var r := ChannelRun(v, cart, channel);
      var dmap := v.dma[base];
      var a1t := WordOf(v.dma[base + 2], v.dma[base + 3]);
      var size := DmaSize(v.dma, channel);
      && WordOf(r.dma[base + 5], r.dma[base + 6]) == 0
      && WordOf(r.dma[base + 2], r.dma[base + 3]) == A1tAfter(dmap, a1t, size)
      && ((dmap / 8) % 2 == 0 && (dmap / 0x10) % 2 == 0 ==> WordOf(r.dma[base + 2], r.dma[base + 3]) == (a1t + size) % 0x1_0000)
      && ((dmap / 8) % 2 == 0 && (dmap / 0x10) % 2 == 1 ==> WordOf(r.dma[base + 2], r.dma[base + 3]) == (a1t - size) % 0x1_0000)
  {
    var base := channel * 0x10;
    var size := DmaSize(v.dma, channel);
    var w := Moved(v, cart, v.dma, channel, size);
    var a1t := A1tAfter(v.dma[base], WordOf(v.dma[base + 2], v.dma[base + 3]), size);
    var once := WithWordAt(w.dma, base + 2, a1t);
    var twice := WithWordAt(once, base + 5, 0);
    assert twice[base + 2] == once[base + 2] && twice[base + 3] == once[base + 3];
  }

  /** No channel is selected by an empty mask. */
  lemma {:induction false} NoChannelSelected(from: nat)
    requires from <= CHANNELS
    ensures SelectedChannels(0, from) == []
    decreases CHANNELS - from
  {
    if from < CHANNELS {
      NoChannelSelected(from + 1);
    }
  }

  /** Dividing by `2 p` is halving and then dividing by `p`. */
  lemma DivTwice(x: nat, p: nat)
    requires p > 0
    ensures x / (2 * p) == (x / 2) / p
  {
    var h := x / 2;
    var q, r := h / p, h % p;
    assert x == q * (2 * p) + (2 * r + x % 2);
    DivModOf(x, 2 * p, q, 2 * r + x % 2);
  }

  /** A non-zero value below `2^w` has a set bit below `w`. */
  lemma {:induction false} SomeBitSet(x: nat, w: nat)
    requires 0 < x < Pow2(w)
    ensures exists c :: 0 <= c < w && (x / Pow2(c)) % 2 == 1
  {
    if x % 2 == 1 {
      assert (x / Pow2(0)) % 2 == 1;
    } else {
      var half := x / 2;
      SomeBitSet(half, w - 1);
      var c :| 0 <= c < w - 1 && (half / Pow2(c)) % 2 == 1;
      DivTwice(x, Pow2(c));
      assert (x / Pow2(c + 1)) % 2 == 1;
    }
  }

  /** `#startDMA` moves no byte exactly when MDMAEN is 0, and at most 64 KiB per channel. */
  lemma DmaStartedMoves(v: BusView, cart: SNESCartridge, mask: byte)
    requires Sized(v, cart)
    ensures var n := DmaStarted(v, cart, mask).1;
      (n == 0 <==> mask == 0) && n <= CHANNELS * 0x1_0000
  {
    if mask == 0 {
      NoChannelSelected(0);
    } else {
      Pow2Values();
      SomeBitSet(mask, 8);
      var c :| 0 <= c < 8 && (mask / Pow2(c)) % 2 == 1;
      SelectedChannelsComplete(mask, 0, c);
    }
  }

  /**
   * `#consumeDMACycles`: `n` bytes (below 2^32) cost `8 n + 8` master
   * cycles; the PPU advances by them and the CPU count by a sixth of them.
   */
  lemma DmaChargedCycles(v: BusView, cart: SNESCartridge, n: nat)
    requires Sized(v, cart) && Timed(v) && 0 < n < 0x1_0000_0000
    ensures var r := DmaCharged(v, cart, n);
      && r.st.cpuCycles == v.st.cpuCycles + (n * 8 + 8) / 6
      && PositionOf(r.ppu.fields) == PositionOf(ClockedFields(v.ppu.fields, (n * 8 + 8) % 0x1_0000_0000))
  {
    DivModOf(n, 0x1_0000_0000, 0, n);
    var master := n * 8 + 8;
    var before := v.ppu.fields;
    var clocked := PpuRan(v, master);
    var walked := HdmaOver(clocked, cart, LinesAfterStep(before, master % 0x1_0000_0000));
    assert SameClock(walked, clocked);
    var irq := IrqUpdated(walked, before.frame, before.scanline, before.cycle);
    assert DmaCharged(v, cart, n) == CpuCharged(irq, master / 6);
  }

  /**
   * A write to MDMAEN (0x420B) runs the selected channels; it charges
   * cycles exactly when the mask is non-zero.
   */
  lemma DmaWriteCharges(v: BusView, cart: SNESCartridge, address: int, value: int)
    requires Sized(v, cart) && Timed(v) && WriteTargetOf(address) == IoRegister(0x0b)
    ensures var w := StoreAt(v, cart, address, value);
      var (x, n) := DmaStarted(w, cart, value % 0x100);
      var r := WriteAt(v, cart, address, value);
      && (value % 0x100 == 0 ==> r == x && n == 0 && r.st.cpuCycles == v.st.cpuCycles)
      && (value % 0x100 != 0 ==> n > 0 && r.st.cpuCycles == v.st.cpuCycles + (n * 8 + 8) / 6)
  {
    var w := StoreAt(v, cart, address, value);
    var (x, n) := DmaStarted(w, cart, value % 0x100);
    DmaStartedMoves(w, cart, value % 0x100);
    if n > 0 {
      DivModOf(n, 0x1_0000_0000, 0, n);
      DmaChargedCycles(x, cart, n);
    }
  }

  // ---------------------------------------------------------------------
  // Properties of HDMA

  /** Adding to a value reduced modulo `m` gives the same residue as adding to the value. */
  lemma AddMod(x: int, k: nat, m: int)
    requires m > 0
    ensures ((x % m) + k) % m == (x + k) % m
  {
    var q, r := x / m, x % m;
    var q2, r2 := (r + k) / m, (r + k) % m;
    assert x + k == (q + q2) * m + r2;
    DivModOf(x + k, m, q + q2, r2);
  }

  /** At the start of a frame an HDMAEN channel restarts at the top of its table; the others go idle. */
  lemma HdmaInitializedChannel(v: BusView, c: nat)
    requires |v.io| == IO_REGISTER_COUNT && |v.dma| == DMA_REGISTER_COUNT && HdmaSized(v.hdma) && c < CHANNELS
    ensures var h := HdmaInitialized(v).hdma;
      var base := c * 0x10;
      && (ChannelEnabled(v.io[0x0c], c) ==>
            && LineOf(h, c) == HdmaLine(1, 0, 1, 0)
            && h.table[c] == WordOf(v.dma[base + 2], v.dma[base + 3])
            && h.indirect[c] == WordOf(v.dma[base + 5], v.dma[base + 6]))
      && (!ChannelEnabled(v.io[0x0c], c) ==>
            LineOf(h, c) == HdmaLine(0, 0, 0, 0) && h.table[c] == v.hdma.table[c] && h.indirect[c] == v.hdma.indirect[c])
  {
  }

  /**
   * One channel's share of `#runHDMAScanline` follows `LineStep` with the
   * header a reload reads; an idle channel changes nothing, and no other
   * channel's line moves.
   */
  lemma HdmaChannelLineStep(v: BusView, cart: SNESCartridge, c: nat)
    requires Sized(v, cart) && c < CHANNELS
    ensures var r := HdmaChannelLine(v, cart, c);
      && (v.hdma.active[c] == 0 ==> r == v)
      && (v.hdma.active[c] != 0 ==> LineOf(r.hdma, c) == LineStep(LineOf(v.hdma, c), HeaderOf(v, cart, c)).0)
      && forall d :: 0 <= d < CHANNELS && d != c ==> LineOf(r.hdma, d) == LineOf(v.hdma, d)
  {
    if v.hdma.active[c] != 0 {
      var header := HeaderOf(v, cart, c);
      ReloadAddresses(v.hdma, c, header, 0);
      var w := if v.hdma.counter[c] == 0 then HdmaReloaded(v, cart, c) else v;
      if v.hdma.counter[c] == 0 {
        if header != 0 && IndirectMode(v.dma, c) {
          ReloadAddresses(v.hdma, c, header, WordOf(w.dma[c * 0x10 + 5], w.dma[c * 0x10 + 6]));
        }
        assert LineOf(w.hdma, c) == Reloaded(LineOf(v.hdma, c), header);
      }
      assert forall d :: 0 <= d < CHANNELS && d != c ==> LineOf(w.hdma, d) == LineOf(v.hdma, d);
      if w.hdma.active[c] != 0 {
        var x := if w.hdma.doTransfer[c] != 0 then HdmaTransferred(w, cart, c) else w;
        assert forall d :: 0 <= d < CHANNELS ==> LineOf(x.hdma, d) == LineOf(w.hdma, d);
      }
    }
  }

  // ---------------------------------------------------------------------
  // Properties of the clock

  /** With NMITIMEN bit 0 set the auto-joypad poll latches both controllers and stores their words; otherwise nothing happens. */
  lemma AutoJoypadWords(v: BusView, j: nat)
    requires |v.io| == IO_REGISTER_COUNT && j < 16
    ensures var r := AutoJoypadPolled(v);
      && (v.io[0] % 2 == 0 ==> r == v)
      && (v.io[0] % 2 == 1 ==>
            && r.pad1 == PadLatched(v.pad1) && r.pad2 == PadLatched(v.pad2)
            && WordOf(r.io[0x18], r.io[0x19]) == AutoJoypadWord(v.pad1.current % 0x1000)
            && WordOf(r.io[0x1a], r.io[0x1b]) == AutoJoypadWord(v.pad2.current % 0x1000)
            && Bit(WordOf(r.io[0x18], r.io[0x19]), j) == (4 <= j && Bit(v.pad1.current % 0x1000, 15 - j))
            && Bit(WordOf(r.io[0x1a], r.io[0x1b]), j) == (4 <= j && Bit(v.pad2.current % 0x1000, 15 - j)))
  {
    if v.io[0] % 2 == 1 {
      var pad1, pad2 := PadLatched(v.pad1), PadLatched(v.pad2);
      assert pad1.latched % 0x1000 == v.pad1.current % 0x1000;
      assert pad2.latched % 0x1000 == v.pad2.current % 0x1000;
      var io := JoypadRegisters(v.io, AutoJoypadWord(pad1.latched % 0x1000), AutoJoypadWord(pad2.latched % 0x1000));
      assert AutoJoypadPolled(v).io == io;
      AutoJoypadWordBits(v.pad1.current % 0x1000, j);
      AutoJoypadWordBits(v.pad2.current % 0x1000, j);
    }
  }

  /**
   * `clock(cpuCycles)` counts `cpuCycles >>> 0` CPU cycles, moves the PPU
   * by six master cycles each, and leaves the timer IRQ pending when the
   * H/V timer fires within the step.
   */
  lemma ClockedAdvances(v: BusView, cart: SNESCartridge, cpuCycles: int)
    requires Sized(v, cart) && Timed(v)
    ensures var cycles := cpuCycles % 0x1_0000_0000;
      var f := v.ppu.fields;
      var r := Clocked(v, cart, cpuCycles);
      var g := r.ppu.fields;
      && r.st.cpuCycles == v.st.cpuCycles + cycles
      && PositionOf(g) == PositionOf(ClockedFields(f, (cycles * 6) % 0x1_0000_0000))
      && (IrqTriggered(r.io, AbsoluteCycle(f.frame, f.scanline, f.cycle), AbsoluteCycle(g.frame, g.scanline, g.cycle)) ==>
            r.st.irqFlag && r.st.irqPending)
  {
  }
}
