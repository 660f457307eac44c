// The SNES system bus (src/core/snes/bus.mjs) as an object: the class
// `SNESBus` owns work RAM, the I/O, DMA and HDMA registers and the audio
// ports, and reaches the PPU, both controllers and the cartridge. Every
// method is proved against the value-level definition in module `SnesBus`:
// `View()` after the call is that function of `View()` before it.

module SnesSystemBus {
  import opened Bits
  import opened Wrappers
  import opened TypedArray
  import opened SnesPpu
  import opened SnesController
  import opened SnesCartridge
  import opened SnesBus

  /** Subtracting one from a value reduced modulo `m` gives the same residue as subtracting from the value. */
  lemma SubOneMod(x: int, m: int)
    requires m > 0
    ensures ((x % m) - 1) % m == (x - 1) % m
  {
    var q, r := x / m, x % m;
    if r > 0 {
      DivModOf(x - 1, m, q, r - 1);
      DivModOf(r - 1, m, 0, r - 1);
    } else {
      DivModOf(x - 1, m, q - 1, m - 1);
      DivModOf(-1, m, -1, m - 1);
    }
  }

  /** The A-bus address after one more byte of a `#runDMAChannel` loop: fixed, down or up by one within the bank. */
  function NextA1t(dmap: byte, a1t: word): word
  {
    if (dmap / 8) % 2 == 1 then a1t
    else if (dmap / 0x10) % 2 == 1 then (a1t - 1) % 0x1_0000
    else (a1t + 1) % 0x1_0000
  }

  /** The A-bus address moves on by one byte per step of the DMA loop. */
  lemma A1tStep(dmap: byte, a1t: word, i: nat)
    ensures A1tAfter(dmap, a1t, i + 1) == NextA1t(dmap, A1tAfter(dmap, a1t, i))
  {
    SubOneMod(a1t - i, 0x1_0000);
    AddMod(a1t + i, 1, 0x1_0000);
  }

  /** What `#runDMAChannel` keeps between bytes determines the next transfer of the plan and what it keeps after it. */
  lemma DmaLoopStep(regs: seq<byte>, channel: nat, n: nat, a1t: word, patternIndex: nat)
    requires |regs| == DMA_REGISTER_COUNT && channel < CHANNELS
    requires a1t == A1tAfter(regs[channel * 0x10], WordOf(regs[channel * 0x10 + 2], regs[channel * 0x10 + 3]), n)
    requires patternIndex == n % |Pattern(regs[channel * 0x10])|
    ensures var base := channel * 0x10;
      var pattern := Pattern(regs[base]);
      && PlanTransfer(regs, channel, n)
           == DmaTransfer(regs[base + 4] as int * 0x1_0000 + a1t, 0x2100 + (regs[base + 1] as int + pattern[patternIndex]) % 0x100, regs[base] >= 0x80)
      && NextA1t(regs[base], a1t) == A1tAfter(regs[base], WordOf(regs[base + 2], regs[base + 3]), n + 1)
      && (patternIndex + 1) % |pattern| == (n + 1) % |pattern|
  {
    var base := channel * 0x10;
    A1tStep(regs[base], WordOf(regs[base + 2], regs[base + 3]), n);
    AddMod(n, 1, |Pattern(regs[base])|);
  }

  /** Moving one element across a concatenation. */
  lemma AppendOne<T>(a: seq<T>, x: T, b: seq<T>)
    ensures a + ([x] + b) == (a + [x]) + b
  {
  }

  /** A zero-filled `Uint8Array` of `n` bytes. */
  method NewBytes(n: nat) returns (a: array<byte>)
    ensures fresh(a) && a.Length == n && a[..] == seq(n, _ => 0)
  {
    a := new byte[n](_ => 0);
  }

  /** A zero-filled `Uint16Array` of `n` entries. */
  method NewWords(n: nat) returns (a: array<word>)
    ensures fresh(a) && a.Length == n && a[..] == seq(n, _ => 0)
  {
    a := new word[n](_ => 0);
  }

  /** The HDMA arrays with channels below `n` taken from `target` and the rest from `before`. */
  function Spliced(target: Hdma, before: Hdma, n: nat): (r: Hdma)
    requires HdmaSized(target) && HdmaSized(before) && n <= CHANNELS
    ensures HdmaSized(r)
  {
    Hdma(target.active[..n] + before.active[n..], target.counter[..n] + before.counter[n..],
         target.doTransfer[..n] + before.doTransfer[n..], target.repeat[..n] + before.repeat[n..],
         target.table[..n] + before.table[n..], target.indirect[..n] + before.indirect[n..])
  }

  /** One more channel taken from `target` is one entry of each array replaced. */
  lemma SplicedStep(target: Hdma, before: Hdma, n: nat)
    requires HdmaSized(target) && HdmaSized(before) && n < CHANNELS
    ensures var h := Spliced(target, before, n);
      Spliced(target, before, n + 1) ==
        Hdma(h.active[n := target.active[n]], h.counter[n := target.counter[n]],
             h.doTransfer[n := target.doTransfer[n]], h.repeat[n := target.repeat[n]],
             h.table[n := target.table[n]], h.indirect[n := target.indirect[n]])
  {
    SpliceStep(target.active, before.active, n);
    SpliceStep(target.counter, before.counter, n);
    SpliceStep(target.doTransfer, before.doTransfer, n);
    SpliceStep(target.repeat, before.repeat, n);
    SpliceStep(target.table, before.table, n);
    SpliceStep(target.indirect, before.indirect, n);
  }

  lemma SpliceStep<T>(t: seq<T>, b: seq<T>, n: nat)
    requires n < |t| == |b|
    ensures t[..n + 1] + b[n + 1..] == (t[..n] + b[n..])[n := t[n]]
  {
  }

  /** All channels taken from `target` is `target`. */
  lemma SplicedAll(target: Hdma, before: Hdma)
    requires HdmaSized(target) && HdmaSized(before)
    ensures Spliced(target, before, CHANNELS) == target
  {
    assert target.active[..CHANNELS] == target.active;
    assert target.counter[..CHANNELS] == target.counter;
    assert target.doTransfer[..CHANNELS] == target.doTransfer;
    assert target.repeat[..CHANNELS] == target.repeat;
    assert target.table[..CHANNELS] == target.table;
    assert target.indirect[..CHANNELS] == target.indirect;
  }

  /** Channel `c`'s entries after `#initializeHDMA`: restarted at `table` and `indirect` when enabled, idle otherwise. */
  function Restarted(h: Hdma, c: nat, enabled: bool, table: word, indirect: word): (r: Hdma)
    requires HdmaSized(h) && c < CHANNELS
    ensures HdmaSized(r)
  {
    if enabled then WithLine(h, c, HdmaLine(1, 0, 1, 0)).(table := h.table[c := table], indirect := h.indirect[c := indirect])
    else WithLine(h, c, HdmaLine(0, 0, 0, 0))
  }

  /** `#initializeHDMA`'s loop: one more channel done is that channel restarted from the registers. */
  lemma InitializedStep(v: BusView, n: nat)
    requires |v.io| == IO_REGISTER_COUNT && |v.dma| == DMA_REGISTER_COUNT && HdmaSized(v.hdma) && n < CHANNELS
    ensures var target := HdmaInitialized(v).hdma;
      var base := n * 0x10;
      Spliced(target, v.hdma, n + 1) ==
        Restarted(Spliced(target, v.hdma, n), n, ChannelEnabled(v.io[0x0c], n),
                  WordOf(v.dma[base + 2], v.dma[base + 3]), WordOf(v.dma[base + 5], v.dma[base + 6]))
  {
    var target := HdmaInitialized(v).hdma;
    SplicedStep(target, v.hdma, n);
    HdmaInitializedChannel(v, n);
  }

  class SNESBus {
    const cartridge: SNESCartridge
    const ppu: SNESPPU
    const controller1: SNESController
    const controller2: SNESController
    const wram: array<byte>
    const ioRegs: array<byte>
    const dmaRegs: array<byte>
    /** The four ports the sound processor writes and the CPU reads (`spcWritePorts`). */
    const audioIn: array<byte>
    /** The four ports the CPU writes and the sound processor reads (`spcReadPorts`). */
    const audioOut: array<byte>
    const hdmaActive: array<byte>
    const hdmaLineCounter: array<byte>
    const hdmaDoTransfer: array<byte>
    const hdmaRepeat: array<byte>
    const hdmaTableAddress: array<word>
    const hdmaIndirectAddress: array<word>
    var st: BusFields

    /** Everything the bus's methods may change. */
    ghost function Repr(): set<object>
    {
      {this, ppu, ppu.registers, ppu.vram, ppu.cgram, ppu.oam, controller1, controller2, cartridge.sram,
       wram, ioRegs, dmaRegs, audioIn, audioOut, hdmaActive, hdmaLineCounter, hdmaDoTransfer, hdmaRepeat,
       hdmaTableAddress, hdmaIndirectAddress}
    }

    /** The bus's memories have their sizes and no two of them are the same buffer. */
    ghost predicate Wired()
    {
      && MemoriesSized() && HdmaWired() && SramApart()
      && cartridge.Valid() && ppu.Valid()
      && controller1 != controller2
    }

    ghost predicate MemoriesSized()
    {
      && wram.Length == WRAM_SIZE && ioRegs.Length == IO_REGISTER_COUNT && dmaRegs.Length == DMA_REGISTER_COUNT
      && audioIn.Length == AUDIO_PORTS && audioOut.Length == AUDIO_PORTS && audioIn != audioOut
    }

    /** The cartridge's SRAM, whose size the header decides, is none of the other byte buffers. */
    ghost predicate SramApart()
    {
      cartridge.sram !in {wram, ioRegs, dmaRegs, audioIn, audioOut, hdmaActive, hdmaLineCounter, hdmaDoTransfer,
                          hdmaRepeat, ppu.registers, ppu.vram, ppu.cgram, ppu.oam}
    }

    /** The HDMA arrays have one entry per channel and are six different buffers. */
    ghost predicate HdmaWired()
    {
      && hdmaActive.Length == CHANNELS && hdmaLineCounter.Length == CHANNELS
      && hdmaDoTransfer.Length == CHANNELS && hdmaRepeat.Length == CHANNELS
      && hdmaTableAddress.Length == CHANNELS && hdmaIndirectAddress.Length == CHANNELS
      && hdmaActive != hdmaLineCounter && hdmaActive != hdmaDoTransfer && hdmaActive != hdmaRepeat
      && hdmaLineCounter != hdmaDoTransfer && hdmaLineCounter != hdmaRepeat && hdmaDoTransfer != hdmaRepeat
      && hdmaTableAddress != hdmaIndirectAddress
    }

    ghost predicate Valid()
      reads this, controller1, controller2
    {
      Wired() && controller1.Valid() && controller2.Valid() && st.wramPortAddress < 0x1_0000_0000
    }

    /** The bus as a value. */
    ghost function View(): (v: BusView)
      requires Valid()
      reads this, controller1, controller2, Repr()
      ensures Sized(v, cartridge)
    {
      BusView(st, wram[..], ioRegs[..], dmaRegs[..], AudioPorts(audioIn[..], audioOut[..]),
              Hdma(hdmaActive[..], hdmaLineCounter[..], hdmaDoTransfer[..], hdmaRepeat[..],
                   hdmaTableAddress[..], hdmaIndirectAddress[..]),
              ppu.View(), controller1.State(), controller2.State(), cartridge.sram[..])
    }

    /** `new SNESBus(cartridge)`: zeroed memories and registers, a fresh PPU and two fresh controllers. */
    constructor (cartridge: SNESCartridge)
      requires cartridge.Valid()
      ensures Valid() && this.cartridge == cartridge
      ensures st == BusFields(false, false, 0, 0, 0, false)
      ensures wram[..] == seq(WRAM_SIZE, _ => 0) && ioRegs[..] == seq(IO_REGISTER_COUNT, _ => 0)
      ensures dmaRegs[..] == seq(DMA_REGISTER_COUNT, _ => 0)
      ensures audioIn[..] == seq(AUDIO_PORTS, _ => 0) && audioOut[..] == seq(AUDIO_PORTS, _ => 0)
      ensures hdmaActive[..] == seq(CHANNELS, _ => 0) && hdmaLineCounter[..] == seq(CHANNELS, _ => 0)
      ensures hdmaDoTransfer[..] == seq(CHANNELS, _ => 0) && hdmaRepeat[..] == seq(CHANNELS, _ => 0)
      ensures hdmaTableAddress[..] == seq(CHANNELS, _ => 0) && hdmaIndirectAddress[..] == seq(CHANNELS, _ => 0)
      ensures ppu.fields == InitialFields() && ppu.lines == seq(HEIGHT, _ => None)
      ensures ppu.registers[..] == seq(REGISTER_COUNT, _ => 0) && ppu.vram[..] == seq(VRAM_SIZE, _ => 0)
      ensures ppu.cgram[..] == seq(CGRAM_SIZE, _ => 0) && ppu.oam[..] == seq(OAM_SIZE, _ => 0)
      ensures controller1.State() == Pad(0, 0, 0, false) && controller2.State() == Pad(0, 0, 0, false)
    {
      this.cartridge := cartridge;
      ppu := new SNESPPU();
      controller1 := new SNESController();
      controller2 := new SNESController();
      var wram' := NewBytes(WRAM_SIZE);
      wram := wram';
      var ioRegs' := NewBytes(IO_REGISTER_COUNT);
      ioRegs := ioRegs';
      var dmaRegs' := NewBytes(DMA_REGISTER_COUNT);
      dmaRegs := dmaRegs';
      var audioIn' := NewBytes(AUDIO_PORTS);
      audioIn := audioIn';
      var audioOut' := NewBytes(AUDIO_PORTS);
      audioOut := audioOut';
      var hdmaActive' := NewBytes(CHANNELS);
      hdmaActive := hdmaActive';
      var hdmaLineCounter' := NewBytes(CHANNELS);
      hdmaLineCounter := hdmaLineCounter';
      var hdmaDoTransfer' := NewBytes(CHANNELS);
      hdmaDoTransfer := hdmaDoTransfer';
      var hdmaRepeat' := NewBytes(CHANNELS);
      hdmaRepeat := hdmaRepeat';
      var hdmaTableAddress' := NewWords(CHANNELS);
      hdmaTableAddress := hdmaTableAddress';
      var hdmaIndirectAddress' := NewWords(CHANNELS);
      hdmaIndirectAddress := hdmaIndirectAddress';
      st := BusFields(false, false, 0, 0, 0, false);
      new;
    }

    // -------------------------------------------------------------------
    // Reads

    /** `read(address)`: the byte at the decoded target, which also becomes the open-bus byte. */
    method Read(address: int) returns (value: byte)
      requires Valid()
      modifies this, ppu, controller1, controller2
      ensures Valid() && (value, View()) == ReadAt(old(View()), cartridge, address)
    {
      value := Fetch(ReadTargetOf(address));
      st := st.(openBus := value);
    }

    /** The branches of `read` before `#setOpenBus`. */
    method Fetch(t: Target) returns (value: byte)
      requires Valid() && InRange(t)
      modifies this, ppu, controller1, controller2
      ensures Valid() && (value, View()) == Fetched(old(View()), cartridge, t)
    {
      match t
      case WorkRam(o) => value := wram[o];
      case PpuPort(i) => value := ppu.ReadRegister(i);
      case AudioPort(i) => value := audioIn[i];
      case WramDataPort(p) => value := ReadWramPort(p);
      case JoypadPort(player) => value := ReadJoypad(player);
      case NmiStatusPort => value := ppu.ReadNmiStatus();
      case HvbjoyPort => value := ppu.ReadHvbjoyStatus();
      case TimeUpPort =>
        value := if st.irqFlag then 0x80 else 0;
        st := st.(irqFlag := false, irqPending := false);
      case IoRegister(i) => value := ioRegs[i];
      case DmaRegister(i) => value := dmaRegs[i];
      case CartridgeSpace(bank, address) => value := cartridge.Read(bank, address);
    }

    /** JOYSER0/JOYSER1 (0x4016/0x4017): the open-bus byte with its bit 0 from the controller's shift. */
    method ReadJoypad(player: nat) returns (value: byte)
      requires Valid() && player < 2
      modifies controller1, controller2
      ensures Valid() && (value, View()) == Fetched(old(View()), cartridge, JoypadPort(player))
    {
      ghost var v := View();
      var bit;
      if player == 0 {
        bit := controller1.ReadSerialBit();
        assert View() == v.(pad1 := controller1.State());
      } else {
        bit := controller2.ReadSerialBit();
        assert View() == v.(pad2 := controller2.State());
      }
      value := (st.openBus / 2) * 2 + bit;
    }

    /** `#readWRAMPort`: WMDATA reads and moves the port address on; WMADDL/M/H read its bytes. */
    method ReadWramPort(port: nat) returns (value: byte)
      requires Valid() && port < 4
      modifies this
      ensures Valid() && value == WramPortValue(wram[..], old(st.wramPortAddress), port)
      ensures st == old(st).(wramPortAddress := WramAddressAfterRead(old(st.wramPortAddress), port))
    {
      if port == 0 {
        value := wram[st.wramPortAddress % WRAM_SIZE];
        st := st.(wramPortAddress := (st.wramPortAddress + 1) % WRAM_SIZE);
        return;
      }
      if port == 1 {
        return st.wramPortAddress % 0x100;
      }
      if port == 2 {
        return (st.wramPortAddress / 0x100) % 0x100;
      }
      value := (st.wramPortAddress / 0x1_0000) % 2;
    }

    // -------------------------------------------------------------------
    // Writes

    /** The part of `write` every write makes: the open-bus byte, then the decoded target. */
    method StoreByte(address: int, value: int)
      requires Valid()
      modifies Repr()
      ensures Valid() && View() == StoreAt(old(View()), cartridge, address, value)
    {
      var b := value % 0x100;
      st := st.(openBus := b);
      Store(WriteTargetOf(address), b);
    }

    /** The branches of `write`, without the DMA start. */
    method Store(t: Target, b: byte)
      requires Valid() && InRange(t)
      modifies Repr()
      ensures Valid() && View() == Stored(old(View()), cartridge, t, b)
    {
      match t
      case WorkRam(o) => StoreWorkRam(o, b);
      case PpuPort(i) => StorePpu(i, b);
      case AudioPort(i) => StoreAudio(i, b);
      case WramDataPort(p) => StoreWramPort(p, b);
      case JoypadPort(_) => StoreJoypad(b);
      case DmaRegister(i) => StoreDma(i, b);
      case IoRegister(i) => StoreIo(i, b);
      case CartridgeSpace(bank, address) => StoreCartridge(bank, address, b);
      case _ =>
    }

    /** The work RAM branch of `write`. */
    method StoreWorkRam(o: nat, b: byte)
      requires Valid() && o < WRAM_SIZE
      modifies wram
      ensures Valid() && View() == Stored(old(View()), cartridge, WorkRam(o), b)
    {
      wram[o] := b;
    }

    /** APUIO0-3 (0x2140-0x2143): `handlePortWrite` stores the byte for the sound processor. */
    method StoreAudio(i: nat, b: byte)
      requires Valid() && i < AUDIO_PORTS
      modifies audioOut
      ensures Valid() && View() == Stored(old(View()), cartridge, AudioPort(i), b)
    {
      audioOut[i] := b;
    }

    /** The DMA register branch of `write`. */
    method StoreDma(i: nat, b: byte)
      requires Valid() && i < DMA_REGISTER_COUNT
      modifies dmaRegs
      ensures Valid() && View() == Stored(old(View()), cartridge, DmaRegister(i), b)
    {
      dmaRegs[i] := b;
    }

    /** The PPU register branch of `write`. */
    method StorePpu(i: nat, b: byte)
      requires Valid() && i < REGISTER_COUNT
      modifies ppu, ppu.registers, ppu.vram, ppu.cgram, ppu.oam
      ensures Valid() && View() == Stored(old(View()), cartridge, PpuPort(i), b)
    {
      assert b % 0x100 == b;
      ppu.WriteRegister(i, b);
    }

    /** JOYWR (0x4016): bit 0 is the strobe of both controllers. */
    method StoreJoypad(b: byte)
      requires Valid()
      modifies this, controller1, controller2
      ensures Valid() && View() == Stored(old(View()), cartridge, JoypadPort(0), b)
    {
      st := st.(joypadStrobe := b % 2 == 1);
      controller1.SetStrobe(st.joypadStrobe);
      controller2.SetStrobe(st.joypadStrobe);
    }

    /** The cartridge branch of `write`: only its SRAM can change. */
    method StoreCartridge(bank: byte, address: word, b: byte)
      requires Valid()
      modifies cartridge.sram
      ensures Valid() && View() == Stored(old(View()), cartridge, CartridgeSpace(bank, address), b)
    {
      cartridge.Write(bank, address, b);
    }

    /** The WRAM data port branch of `write`. */
    method StoreWramPort(port: nat, b: byte)
      requires Valid() && port < 4
      modifies this, wram
      ensures Valid() && View() == Stored(old(View()), cartridge, WramDataPort(port), b)
    {
      WriteWramPort(port, b);
    }

    /** `#writeWRAMPort`: WMDATA stores and moves on; WMADDL/M/H replace one byte of the address. */
    method WriteWramPort(port: nat, b: byte)
      requires Valid() && port < 4
      modifies this, wram
      ensures Valid() && wram[..] == WramAfterPortWrite(old(wram[..]), old(st.wramPortAddress), port, b)
      ensures st == old(st).(wramPortAddress := WramAddressAfterWrite(old(st.wramPortAddress), port, b))
    {
      if port == 0 {
        wram[st.wramPortAddress % WRAM_SIZE] := b;
        st := st.(wramPortAddress := (st.wramPortAddress + 1) % WRAM_SIZE);
        return;
      }
      if port == 1 {
        st := st.(wramPortAddress := ((st.wramPortAddress / 0x100) % 0x200) * 0x100 + b);
        return;
      }
      if port == 2 {
        st := st.(wramPortAddress := ((st.wramPortAddress / 0x1_0000) % 2) * 0x1_0000 + b * 0x100
                                     + st.wramPortAddress % 0x100);
        return;
      }
      st := st.(wramPortAddress := st.wramPortAddress % 0x1_0000 + (b % 2) * 0x1_0000);
    }

    /** The I/O register branch of `write`: NMITIMEN, the multiplier and the divider. */
    method StoreIo(i: nat, b: byte)
      requires Valid() && i < IO_REGISTER_COUNT
      modifies this, ppu, ioRegs
      ensures Valid() && View() == IoStored(old(View()), i, b)
    {
      if i == 0 {
        StoreNmitimen(b);
      } else {
        ghost var v := View();
        StoreArithmetic(i, b);
        assert View() == v.(io := IoAfterWrite(v.io, i, b));
      }
    }

    /** NMITIMEN (0x4200): bit 7 enables the NMI; with both timer bits clear the timer IRQ is dropped. */
    method StoreNmitimen(b: byte)
      requires Valid()
      modifies this, ppu, ioRegs
      ensures Valid() && View() == IoStored(old(View()), 0, b)
    {
      ghost var v := View();
      ioRegs[0] := b;
      ppu.SetNmiEnabled(b >= 0x80);
      ghost var w := v.(io := v.io[0 := b], ppu := v.ppu.(fields := v.ppu.fields.(nmiEnabled := b >= 0x80)));
      assert View() == w;
      if (b / 0x10) % 4 == 0 {
        st := st.(irqFlag := false, irqPending := false);
      }
    }

    /** Any other I/O register: the byte is stored and the multiplier or divider recomputes. */
    method StoreArithmetic(i: nat, b: byte)
      requires Valid() && 0 < i < IO_REGISTER_COUNT
      modifies ioRegs
      ensures Valid() && ioRegs[..] == IoAfterWrite(old(ioRegs[..]), i, b)
    {
      ioRegs[i] := b;
      if i == 2 || i == 3 {
        UpdateMultiplication();
      } else if 4 <= i <= 6 {
        UpdateDivision();
      }
    }

    /** `#updateMultiplication`. */
    method UpdateMultiplication()
      requires Valid()
      modifies ioRegs
      ensures ioRegs[..] == WithProduct(old(ioRegs[..]))
    {
      var result := ioRegs[0x02] as int * ioRegs[0x03];
      ByteProductBound(ioRegs[0x02], ioRegs[0x03]);
      ioRegs[0x16] := result % 0x100;
      ioRegs[0x17] := (result / 0x100) % 0x100;
    }

    /** `#updateDivision`. */
    method UpdateDivision()
      requires Valid()
      modifies ioRegs
      ensures ioRegs[..] == WithQuotient(old(ioRegs[..]))
    {
      var dividend := ioRegs[0x04] as int + ioRegs[0x05] as int * 0x100;
      var divisor := ioRegs[0x06];
      assert dividend == WordOf(ioRegs[0x04], ioRegs[0x05]);
      if divisor == 0 {
        StoreIoWord(0x14, 0xffff);
        StoreIoWord(0x16, dividend);
        return;
      }
      var quotient := dividend / divisor;
      var remainder := dividend % divisor;
      assert Divide(WordOf(ioRegs[0x04], ioRegs[0x05]), divisor) == Quotient(quotient, remainder);
      StoreIoWord(0x14, quotient);
      StoreIoWord(0x16, remainder);
    }

    /** A 16-bit result written to the I/O register pair at `i`, low byte first. */
    method StoreIoWord(i: nat, w: word)
      requires Valid() && i + 1 < IO_REGISTER_COUNT
      modifies ioRegs
      ensures ioRegs[..] == WithWordAt(old(ioRegs[..]), i, w)
    {
      ioRegs[i] := w % 0x100;
      ioRegs[i + 1] := (w / 0x100) % 0x100;
    }

    /** `write(address, value)`: the store, and a write to MDMAEN (0x420B) runs the DMA and charges its cycles. */
    method Write(address: int, value: int)
      requires Valid() && (WriteTargetOf(address) == IoRegister(0x0b) ==> InFrame(ppu.fields))
      modifies Repr()
      ensures Valid() && View() == WriteAt(old(View()), cartridge, address, value)
    {
      StoreByte(address, value);
      if WriteTargetOf(address) == IoRegister(0x0b) {
        var transferred := StartDma(value % 0x100);
        if transferred > 0 {
          ConsumeDmaCycles(transferred);
        }
      }
    }

    // -------------------------------------------------------------------
    // General DMA

    /** One byte of a transfer: read on one bus, written on the other. */
    method TransferDma(t: DmaTransfer)
      requires Valid()
      modifies Repr()
      ensures Valid() && View() == TransferByte(old(View()), cartridge, t)
    {
      var value;
      if !t.bToA {
        value := Read(t.aAddress);
        StoreByte(t.bAddress, value);
      } else {
        value := Read(t.bAddress);
        StoreByte(t.aAddress, value);
      }
    }

    /** `#runDMAChannel(channel)`: the channel's transfers, then A1T and DAS written back; returns the byte count. */
    method RunDmaChannel(channel: nat) returns (transferred: nat)
      requires Valid() && channel < CHANNELS
      modifies Repr()
      ensures Valid() && View() == ChannelRun(old(View()), cartridge, channel)
      ensures transferred == DmaSize(old(dmaRegs[..]), channel)
    {
      ghost var v0 := View();
      ghost var regs := v0.dma;
      var base := channel * 0x10;
      var dmap := dmaRegs[base];
      var bbad := dmaRegs[base + 1];
      var a1t := WordOf(dmaRegs[base + 2], dmaRegs[base + 3]);
      var a1b := dmaRegs[base + 4];
      var size := DmaSize(dmaRegs[..], channel);
      assert dmap == regs[base] && bbad == regs[base + 1] && a1b == regs[base + 4];
      assert a1t == WordOf(regs[base + 2], regs[base + 3]);
      assert size == DmaSize(regs, channel);
      transferred, a1t := TransferDmaBytes(v0, channel, dmap, bbad, a1t, a1b, size);
      CloseDmaChannel(v0, channel, a1t);
    }

    /** The byte loop of `#runDMAChannel`: `size` transfers of the channel's plan; returns the count and the A1T after them. */
    method TransferDmaBytes(ghost v0: BusView, channel: nat, dmap: byte, bbad: byte, start: word, a1b: byte, size: nat)
      returns (transferred: nat, a1t: word)
      requires Valid() && Sized(v0, cartridge) && channel < CHANNELS && View() == v0
      requires dmap == v0.dma[channel * 0x10] && bbad == v0.dma[channel * 0x10 + 1] && a1b == v0.dma[channel * 0x10 + 4]
      requires start == WordOf(v0.dma[channel * 0x10 + 2], v0.dma[channel * 0x10 + 3])
      modifies Repr()
      ensures Valid() && View() == Moved(v0, cartridge, v0.dma, channel, size)
      ensures transferred == size && a1t == A1tAfter(dmap, start, size)
    {
      var pattern := Pattern(dmap);
      var patternIndex := 0;
      var remaining := size;
      a1t := start;
      transferred := 0;
      while remaining > 0
        invariant Valid() && transferred + remaining == size
        invariant View() == Moved(v0, cartridge, v0.dma, channel, transferred)
        invariant a1t == A1tAfter(dmap, start, transferred) && patternIndex == transferred % |pattern|
      {
        a1t, patternIndex := TransferDmaByte(v0, v0.dma, channel, transferred, a1b, bbad, dmap, start, a1t, pattern, patternIndex);
        remaining := remaining - 1;
        transferred := transferred + 1;
      }
    }

    /** After the last byte of channel `channel`: the registers `#runDMAChannel` writes back complete the run. */
    method CloseDmaChannel(ghost v0: BusView, channel: nat, a1t: word)
      requires Valid() && Sized(v0, cartridge) && channel < CHANNELS
      requires View() == Moved(v0, cartridge, v0.dma, channel, DmaSize(v0.dma, channel))
      requires a1t == A1tAfter(v0.dma[channel * 0x10], WordOf(v0.dma[channel * 0x10 + 2], v0.dma[channel * 0x10 + 3]), DmaSize(v0.dma, channel))
      modifies Repr()
      ensures Valid() && View() == ChannelRun(v0, cartridge, channel)
    {
      var base := channel * 0x10;
      ghost var w := View();
      ChannelRunBy(v0, cartridge, channel, w);
      FinishDmaChannel(base, a1t);
      assert View() == w.(dma := WithWordAt(WithWordAt(w.dma, base + 2, a1t), base + 5, 0));
    }

    /** One byte of `#runDMAChannel`'s loop: transfer `n` of the channel, then the next A1T and pattern index. */
    method TransferDmaByte(ghost v0: BusView, ghost regs: seq<byte>, channel: nat, ghost n: nat,
                           a1b: byte, bbad: byte, dmap: byte, ghost start: word, a1t: word, pattern: seq<nat>, patternIndex: nat)
      returns (nextA1t: word, nextIndex: nat)
      requires Valid() && Sized(v0, cartridge) && |regs| == DMA_REGISTER_COUNT && channel < CHANNELS
      requires dmap == regs[channel * 0x10] && bbad == regs[channel * 0x10 + 1] && a1b == regs[channel * 0x10 + 4]
      requires start == WordOf(regs[channel * 0x10 + 2], regs[channel * 0x10 + 3]) && pattern == Pattern(dmap)
      requires a1t == A1tAfter(dmap, start, n) && patternIndex == n % |pattern|
      requires View() == Moved(v0, cartridge, regs, channel, n)
      modifies Repr()
      ensures Valid() && View() == Moved(v0, cartridge, regs, channel, n + 1)
      ensures nextA1t == A1tAfter(dmap, start, n + 1) && nextIndex == (n + 1) % |pattern|
    {
      DmaLoopStep(regs, channel, n, a1t, patternIndex);
      var t := DmaTransfer(a1b as int * 0x1_0000 + a1t, 0x2100 + (bbad as int + pattern[patternIndex]) % 0x100, dmap >= 0x80);
      TransferPlanned(v0, regs, channel, n, t);
      nextA1t := NextA1t(dmap, a1t);
      nextIndex := (patternIndex + 1) % |pattern|;
    }

    /** Transfer `n` of channel `channel`, after the first `n`. */
    method TransferPlanned(ghost v0: BusView, ghost regs: seq<byte>, channel: nat, ghost n: nat, t: DmaTransfer)
      requires Valid() && Sized(v0, cartridge) && |regs| == DMA_REGISTER_COUNT && channel < CHANNELS
      requires t == PlanTransfer(regs, channel, n) && View() == Moved(v0, cartridge, regs, channel, n)
      modifies Repr()
      ensures Valid() && View() == Moved(v0, cartridge, regs, channel, n + 1)
    {
      MovedNext(v0, cartridge, regs, channel, n);
      TransferDma(t);
    }

    /** The end of `#runDMAChannel`: A1T takes the address after the last byte, DAS the exhausted count 0. */
    method FinishDmaChannel(base: nat, a1t: word)
      requires dmaRegs.Length == DMA_REGISTER_COUNT && base + 6 < DMA_REGISTER_COUNT
      modifies dmaRegs
      ensures dmaRegs[..] == WithWordAt(WithWordAt(old(dmaRegs[..]), base + 2, a1t), base + 5, 0)
    {
      dmaRegs[base + 2] := a1t % 0x100;
      dmaRegs[base + 3] := (a1t / 0x100) % 0x100;
      dmaRegs[base + 5] := 0;
      dmaRegs[base + 6] := 0;
    }

    /** `#startDMA(mask)`: every channel whose MDMAEN bit is set, in ascending order; returns the bytes moved. */
    method StartDma(mask: byte) returns (transferred: nat)
      requires Valid()
      modifies Repr()
      ensures Valid() && View() == DmaStarted(old(View()), cartridge, mask).0
      ensures transferred == DmaStarted(old(View()), cartridge, mask).1
    {
      ghost var v0 := View();
      transferred := 0;
      var channel := 0;
      while channel < CHANNELS
        invariant Valid() && channel <= CHANNELS
        invariant StartedUpTo(v0, cartridge, mask, channel, View(), transferred)
      {
        transferred := StartDmaChannel(v0, mask, channel, transferred);
        channel := channel + 1;
      }
      StartedUpToEnd(v0, cartridge, mask, View(), transferred);
    }

    /** One channel of `#startDMA(mask)`: it runs when its MDMAEN bit is set; returns the bytes moved so far. */
    method StartDmaChannel(ghost v0: BusView, mask: byte, channel: nat, moved: nat) returns (total: nat)
      requires Valid() && Sized(v0, cartridge) && channel < CHANNELS
      requires StartedUpTo(v0, cartridge, mask, channel, View(), moved)
      modifies Repr()
      ensures Valid() && StartedUpTo(v0, cartridge, mask, channel + 1, View(), total)
    {
      ghost var w := View();
      StartedUpToNext(v0, cartridge, mask, channel, w, moved);
      total := moved;
      if ChannelEnabled(mask, channel) {
        var n := RunDmaChannel(channel);
        total := total + n;
      }
    }

    /** `#consumeDMACycles(n)`: the PPU, HDMA and the timer run for the DMA's master cycles; the CPU count takes a sixth. */
    method ConsumeDmaCycles(n: nat)
      requires Valid() && InFrame(ppu.fields)
      modifies Repr()
      ensures Valid() && View() == DmaCharged(old(View()), cartridge, n)
    {
      if n % 0x1_0000_0000 != 0 {
        ChargeDmaCycles(n);
      }
    }

    /** `#consumeDMACycles(n)` for a count whose low 32 bits are not all zero. */
    method ChargeDmaCycles(n: nat)
      requires Valid() && InFrame(ppu.fields) && n % 0x1_0000_0000 != 0
      modifies Repr()
      ensures Valid() && View() == DmaCharged(old(View()), cartridge, n)
    {
      var bytes := n % 0x1_0000_0000;
      var before := ppu.fields;
      var masterCycles := bytes * 8 + 8;
      ghost var v0 := View();
      assert v0.ppu.fields == before;
      ClockPpu(masterCycles);
      ghost var ran := View();
      assert ran == PpuRan(v0, masterCycles);
      assert ppu.fields == ClockedFields(before, masterCycles % 0x1_0000_0000);
      ClockReachable(before, masterCycles % 0x1_0000_0000);
      ghost var lines := LinesAfterStep(before, masterCycles % 0x1_0000_0000);
      assert lines == Walk(before.frame, before.scanline, ppu.fields.frame, ppu.fields.scanline);
      ClockHdma(before.frame, before.scanline);
      assert View() == HdmaOver(ran, cartridge, lines);
      DmaChargedBy(v0, cartridge, n, masterCycles, ran, lines, View());
      UpdateIrq(before.frame, before.scanline, before.cycle);
      ChargeCpu(masterCycles / 6);
    }

    /** The CPU count grows by `cycles`. */
    method ChargeCpu(cycles: nat)
      requires Valid()
      modifies this
      ensures Valid() && View() == CpuCharged(old(View()), cycles)
    {
      st := st.(cpuCycles := st.cpuCycles + cycles);
    }

    /** The PPU runs `masterCycles` while the rest of the bus waits. */
    method ClockPpu(masterCycles: nat)
      requires Valid()
      modifies ppu, ppu.registers, ppu.vram, ppu.cgram, ppu.oam
      ensures Valid() && View() == PpuRan(old(View()), masterCycles)
    {
      ppu.Clock(masterCycles);
    }

    // -------------------------------------------------------------------
    // HDMA

    /** `#clockHDMA`: every line from the old PPU position to the new one; a new frame re-initialises HDMA first. */
    method ClockHdma(beforeFrame: nat, beforeScanline: nat)
      requires Valid() && Reachable(beforeFrame, beforeScanline, ppu.fields.frame, ppu.fields.scanline)
      modifies Repr()
      ensures Valid()
      ensures View() == HdmaOver(old(View()), cartridge,
                                 Walk(beforeFrame, beforeScanline, old(ppu.fields.frame), old(ppu.fields.scanline)))
    {
      ghost var v0 := View();
      var afterFrame, afterScanline := ppu.fields.frame, ppu.fields.scanline;
      ghost var lines := Walk(beforeFrame, beforeScanline, afterFrame, afterScanline);
      var frame: nat, scanline: nat := beforeFrame, beforeScanline;
      ghost var done: seq<nat> := [];
      ghost var rest := lines;
      while frame != afterFrame || scanline != afterScanline
        invariant Valid() && Reachable(frame, scanline, afterFrame, afterScanline)
        invariant rest == Walk(frame, scanline, afterFrame, afterScanline) && done + rest == lines
        invariant View() == HdmaOver(v0, cartridge, done)
        invariant PositionOf(ppu.fields) == PositionOf(v0.ppu.fields)
        decreases Distance(frame, scanline, afterFrame, afterScanline)
      {
        WalkStep(frame, scanline, afterFrame, afterScanline);
        ghost var nextFrame, next := NextFrame(frame, scanline), NextScanline(scanline);
        scanline := scanline + 1;
        if scanline >= LINES_PER_FRAME {
          scanline := 0;
          frame := frame + 1;
        }
        assert frame == nextFrame && scanline == next;
        AppendOne(done, scanline, Walk(frame, scanline, afterFrame, afterScanline));
        HdmaOverAppend(v0, cartridge, done, scanline);
        VisitHdmaLine(scanline);
        done, rest := done + [scanline], Walk(frame, scanline, afterFrame, afterScanline);
      }
      assert done == lines;
    }

    /** One line of `#clockHDMA`'s walk. */
    method VisitHdmaLine(scanline: nat)
      requires Valid()
      modifies Repr()
      ensures Valid() && View() == HdmaVisit(old(View()), cartridge, scanline)
    {
      ghost var v0 := View();
      if scanline == 0 {
        InitializeHdma();
      }
      assert View() == if scanline == 0 then HdmaInitialized(v0) else v0;
      if scanline < VISIBLE_SCANLINES {
        RunHdmaScanline();
        LatchLine(scanline);
      }
    }

    /** The PPU latches line `scanline`'s state; the rest of the bus is untouched. */
    method LatchLine(scanline: nat)
      requires Valid()
      modifies ppu
      ensures Valid() && View() == old(View()).(ppu := ViewLatched(old(View()).ppu, scanline))
    {
      ppu.LatchScanlineState(scanline);
    }

    /** The six HDMA arrays as a value. */
    ghost function HdmaArrays(): (h: Hdma)
      reads this, hdmaActive, hdmaLineCounter, hdmaDoTransfer, hdmaRepeat, hdmaTableAddress, hdmaIndirectAddress
    {
      Hdma(hdmaActive[..], hdmaLineCounter[..], hdmaDoTransfer[..], hdmaRepeat[..],
           hdmaTableAddress[..], hdmaIndirectAddress[..])
    }

    /** `#initializeHDMA`: per channel, an HDMAEN bit restarts it at A1T with DAS as indirect address, else it goes idle. */
    method InitializeHdma()
      requires Valid()
      modifies hdmaActive, hdmaLineCounter, hdmaDoTransfer, hdmaRepeat, hdmaTableAddress, hdmaIndirectAddress
      ensures Valid() && View() == HdmaInitialized(old(View()))
    {
      ghost var v0 := View();
      RestartChannels(v0);
    }

    /** The loop of `#initializeHDMA`, over the channels in order. */
    method RestartChannels(ghost v: BusView)
      requires Valid() && v.io == ioRegs[..] && v.dma == dmaRegs[..] && v.hdma == HdmaArrays()
      modifies hdmaActive, hdmaLineCounter, hdmaDoTransfer, hdmaRepeat, hdmaTableAddress, hdmaIndirectAddress
      ensures HdmaArrays() == HdmaInitialized(v).hdma
    {
      ghost var target := HdmaInitialized(v).hdma;
      var enabledMask := ioRegs[0x0c];
      var channel := 0;
      while channel < CHANNELS
        invariant channel <= CHANNELS
        invariant HdmaArrays() == Spliced(target, v.hdma, channel)
      {
        RestartChannel(v, enabledMask, channel);
        channel := channel + 1;
      }
      SplicedAll(target, v.hdma);
    }

    /** Channel `channel` of `#initializeHDMA`'s loop, from the registers of `v`. */
    method RestartChannel(ghost v: BusView, enabledMask: byte, channel: nat)
      requires Valid() && v.io == ioRegs[..] && v.dma == dmaRegs[..] && HdmaSized(v.hdma) && channel < CHANNELS
      requires enabledMask == v.io[0x0c] && HdmaArrays() == Spliced(HdmaInitialized(v).hdma, v.hdma, channel)
      modifies hdmaActive, hdmaLineCounter, hdmaDoTransfer, hdmaRepeat, hdmaTableAddress, hdmaIndirectAddress
      ensures HdmaArrays() == Spliced(HdmaInitialized(v).hdma, v.hdma, channel + 1)
    {
      InitializedStep(v, channel);
      var base := channel * 0x10;
      var t := WordOf(dmaRegs[base + 2], dmaRegs[base + 3]);
      var i := WordOf(dmaRegs[base + 5], dmaRegs[base + 6]);
      InitializeHdmaChannel(channel, ChannelEnabled(enabledMask, channel), t, i);
    }

    /** One channel of `#initializeHDMA`: enabled, it restarts at `table` with `indirect`; disabled, its line is cleared. */
    method InitializeHdmaChannel(channel: nat, enabled: bool, table: word, indirect: word)
      requires HdmaWired() && channel < CHANNELS
      modifies hdmaActive, hdmaLineCounter, hdmaDoTransfer, hdmaRepeat, hdmaTableAddress, hdmaIndirectAddress
      ensures HdmaArrays() == Restarted(old(HdmaArrays()), channel, enabled, table, indirect)
    {
      if !enabled {
        hdmaActive[channel] := 0;
        hdmaLineCounter[channel] := 0;
        hdmaDoTransfer[channel] := 0;
        hdmaRepeat[channel] := 0;
        return;
      }
      hdmaActive[channel] := 1;
      hdmaLineCounter[channel] := 0;
      hdmaDoTransfer[channel] := 1;
      hdmaRepeat[channel] := 0;
      hdmaTableAddress[channel] := table;
      hdmaIndirectAddress[channel] := indirect;
    }

    /** `#runHDMAScanline`: the channels in order. */
    method RunHdmaScanline()
      requires Valid()
      modifies Repr()
      ensures Valid() && View() == HdmaChannels(old(View()), cartridge, CHANNELS)
    {
      ghost var v0 := View();
      var channel := 0;
      while channel < CHANNELS
        invariant Valid() && channel <= CHANNELS
        invariant View() == HdmaChannels(v0, cartridge, channel)
      {
        HdmaChannelsNext(v0, cartridge, channel);
        RunHdmaChannel(channel);
        channel := channel + 1;
      }
    }

    /** One channel of `#runHDMAScanline`: reload at a zero counter, transfer when flagged, count the line down. */
    method RunHdmaChannel(c: nat)
      requires Valid() && c < CHANNELS
      modifies Repr()
      ensures Valid() && View() == HdmaChannelLine(old(View()), cartridge, c)
    {
      if hdmaActive[c] == 0 {
        return;
      }
      ReloadIfDue(c);
      if hdmaActive[c] == 0 {
        return;
      }
      TransferIfDue(c);
      CountDownLine(c);
    }

    /** A channel whose line counter is 0 reloads its line header. */
    method ReloadIfDue(c: nat)
      requires Valid() && c < CHANNELS
      modifies Repr()
      ensures Valid() && View() == if old(View()).hdma.counter[c] == 0 then HdmaReloaded(old(View()), cartridge, c) else old(View())
    {
      if hdmaLineCounter[c] == 0 {
        ReloadHdmaChannel(c);
      }
    }

    /** A channel whose transfer flag is set transfers this line. */
    method TransferIfDue(c: nat)
      requires Valid() && c < CHANNELS
      modifies Repr()
      ensures Valid() && View() == if old(View()).hdma.doTransfer[c] != 0 then HdmaTransferred(old(View()), cartridge, c) else old(View())
    {
      if hdmaDoTransfer[c] != 0 {
        TransferHdmaChannel(c);
      }
    }

    /** The line counter counts down and the next line's transfer flag is set. */
    method CountDownLine(c: nat)
      requires Valid() && c < CHANNELS
      modifies hdmaLineCounter, hdmaDoTransfer
      ensures Valid() && View() == old(View()).(hdma := WithLine(old(View()).hdma, c, CountedDown(LineOf(old(View()).hdma, c))))
    {
      CountDownHdmaLine(c);
    }

    /** The end of a channel's line: `hdmaLineCounter -= 1`, then the next line's transfer flag. */
    method CountDownHdmaLine(c: nat)
      requires Valid() && c < CHANNELS
      modifies hdmaLineCounter, hdmaDoTransfer
      ensures HdmaArrays() == WithLine(old(HdmaArrays()), c, CountedDown(LineOf(old(HdmaArrays()), c)))
    {
      hdmaLineCounter[c] := (hdmaLineCounter[c] as int - 1) % 0x100;
      if hdmaLineCounter[c] == 0 {
        hdmaDoTransfer[c] := 1;
        return;
      }
      hdmaDoTransfer[c] := if hdmaRepeat[c] != 0 then 1 else 0;
    }

    /**
     * `#reloadHDMAChannel`: the line header, then in indirect mode the
     * indirect address. The source sets the transfer flag after the
     * indirect reads; here it is set with the header, which is the same
     * because reads never touch the HDMA arrays.
     */
    method ReloadHdmaChannel(c: nat)
      requires Valid() && c < CHANNELS
      modifies Repr()
      ensures Valid() && View() == HdmaReloaded(old(View()), cartridge, c)
    {
      ghost var v := View();
      var base := c * 0x10;
      var sourceBank := dmaRegs[base + 4];
      var address := sourceBank as int * 0x1_0000 + hdmaTableAddress[c];
      assert address == v.dma[base + 4] as int * 0x1_0000 + v.hdma.table[c];
      var header := Read(address);
      ghost var read := View();
      assert ReadAt(v, cartridge, v.dma[c * 0x10 + 4] as int * 0x1_0000 + v.hdma.table[c]) == (header, read);
      LoadHdmaHeader(c, header);
      if header != 0 && (dmaRegs[base] / 0x40) % 2 == 1 {
        assert IndirectMode(v.dma, c);
        ReloadedIndirect(v, cartridge, c, header, read);
        ReadIndirectAddress(c);
      } else {
        ReloadedDirect(v, cartridge, c, header, read);
      }
    }

    /** The header's effect: the table moves past it, and the line is loaded from it. */
    method LoadHdmaHeader(c: nat, header: byte)
      requires Valid() && c < CHANNELS
      modifies hdmaActive, hdmaLineCounter, hdmaDoTransfer, hdmaRepeat, hdmaTableAddress
      ensures HdmaArrays() == HeaderLoaded(old(HdmaArrays()), c, header)
      ensures Valid() && View() == old(View()).(hdma := HeaderLoaded(old(View()).hdma, c, header))
    {
      hdmaTableAddress[c] := (hdmaTableAddress[c] as int + 1) % 0x1_0000;
      LoadHdmaLine(c, header);
    }

    /** The line entries a header gives: zero ends the table, 0x80 is 128 repeated lines, else the count and repeat bit. */
    method LoadHdmaLine(c: nat, header: byte)
      requires Valid() && c < CHANNELS
      modifies hdmaActive, hdmaLineCounter, hdmaDoTransfer, hdmaRepeat
      ensures HdmaArrays() == WithLine(old(HdmaArrays()), c, Reloaded(LineOf(old(HdmaArrays()), c), header))
    {
      if header == 0 {
        hdmaActive[c] := 0;
        hdmaLineCounter[c] := 0;
        hdmaDoTransfer[c] := 0;
        return;
      }
      if header == 0x80 {
        hdmaRepeat[c] := 0;
        hdmaLineCounter[c] := 128;
      } else {
        hdmaRepeat[c] := if header >= 0x80 then 1 else 0;
        hdmaLineCounter[c] := header % 0x80;
        if hdmaLineCounter[c] == 0 {
          hdmaLineCounter[c] := 128;
        }
      }
      hdmaDoTransfer[c] := 1;
    }

    /** An indirect channel's two address bytes, read from the table into the indirect address and DAS. */
    method ReadIndirectAddress(c: nat)
      requires Valid() && c < CHANNELS
      modifies Repr()
      ensures Valid() && View() == IndirectReloaded(old(View()), cartridge, c)
    {
      ghost var v := View();
      var base := c * 0x10;
      var sourceBank := dmaRegs[base + 4];
      var tableAddress := hdmaTableAddress[c];
      var first := sourceBank as int * 0x1_0000 + tableAddress;
      var second := sourceBank as int * 0x1_0000 + (tableAddress as int + 1) % 0x1_0000;
      assert first == v.dma[base + 4] as int * 0x1_0000 + v.hdma.table[c];
      assert second == v.dma[base + 4] as int * 0x1_0000 + (v.hdma.table[c] as int + 1) % 0x1_0000;
      var low := Read(first);
      ghost var x := View();
      var high := Read(second);
      ghost var y := View();
      assert ReadAt(v, cartridge, v.dma[c * 0x10 + 4] as int * 0x1_0000 + v.hdma.table[c]) == (low, x);
      assert ReadAt(x, cartridge, v.dma[c * 0x10 + 4] as int * 0x1_0000 + (v.hdma.table[c] as int + 1) % 0x1_0000) == (high, y);
      IndirectReloadedBy(v, cartridge, c, low, x, high, y);
      StoreIndirectAddress(c, low, high);
    }

    /** The indirect address read from the table: into `hdmaIndirectAddress` and DAS, the table past both bytes. */
    method StoreIndirectAddress(c: nat, low: byte, high: byte)
      requires Valid() && c < CHANNELS
      modifies hdmaIndirectAddress, dmaRegs, hdmaTableAddress
      ensures dmaRegs[..] == old(dmaRegs[..])[c * 0x10 + 5 := low][c * 0x10 + 6 := high]
      ensures HdmaArrays() == IndirectLoaded(old(HdmaArrays()), c, WordOf(low, high))
      ensures Valid() && View() == old(View()).(hdma := IndirectLoaded(old(View()).hdma, c, WordOf(low, high)),
                                                dma := old(View()).dma[c * 0x10 + 5 := low][c * 0x10 + 6 := high])
    {
      var base := c * 0x10;
      var tableAddress := hdmaTableAddress[c];
      AddMod(tableAddress as int + 1, 1, 0x1_0000);
      hdmaIndirectAddress[c] := WordOf(low, high);
      dmaRegs[base + 5] := low;
      dmaRegs[base + 6] := high;
      hdmaTableAddress[c] := ((tableAddress as int + 1) % 0x1_0000 + 1) % 0x1_0000;
    }

    /** `#transferHDMAChannel`: one unit per entry of the mode's pattern, from registers read once. */
    method TransferHdmaChannel(c: nat)
      requires Valid() && c < CHANNELS
      modifies Repr()
      ensures Valid() && View() == HdmaTransferred(old(View()), cartridge, c)
    {
      ghost var v0 := View();
      var base := c * 0x10;
      var s := HdmaSetup(dmaRegs[base], dmaRegs[base + 1], dmaRegs[base + 4], dmaRegs[base + 7]);
      assert s == SetupOf(v0.dma, c);
      TransferHdmaUnits(c, s);
    }

    /** The units of an HDMA transfer with setup `s`, one per entry of its pattern. */
    method TransferHdmaUnits(c: nat, s: HdmaSetup)
      requires Valid() && c < CHANNELS
      modifies Repr()
      ensures Valid() && View() == HdmaUnits(old(View()), cartridge, c, s, |Pattern(s.dmap)|)
    {
      ghost var v0 := View();
      TransferHdmaFrom(v0, c, s, 0);
    }

    /**
     * The `for` loop of `#transferHDMAChannel` from unit `index` on, written
     * as a recursion over the (at most four) units of the pattern.
     */
    method TransferHdmaFrom(ghost v0: BusView, c: nat, s: HdmaSetup, index: nat)
      requires Valid() && Sized(v0, cartridge) && c < CHANNELS && index <= |Pattern(s.dmap)|
      requires View() == HdmaUnits(v0, cartridge, c, s, index)
      modifies Repr()
      ensures Valid() && View() == HdmaUnits(v0, cartridge, c, s, |Pattern(s.dmap)|)
      decreases |Pattern(s.dmap)| - index
    {
      if index < |Pattern(s.dmap)| {
        TransferHdmaStep(v0, c, s, index);
        TransferHdmaFrom(v0, c, s, index + 1);
      }
    }

    /** Unit `index` of an HDMA transfer, after the first `index` units. */
    method TransferHdmaStep(ghost v0: BusView, c: nat, s: HdmaSetup, index: nat)
      requires Valid() && Sized(v0, cartridge) && c < CHANNELS && index < |Pattern(s.dmap)|
      requires View() == HdmaUnits(v0, cartridge, c, s, index)
      modifies Repr()
      ensures Valid() && View() == HdmaUnits(v0, cartridge, c, s, index + 1)
    {
      HdmaUnitsNext(v0, cartridge, c, s, index);
      TransferHdmaUnit(c, s, index);
    }

    /** One unit of an HDMA transfer: the source address moves on, then the byte is moved. */
    method TransferHdmaUnit(c: nat, s: HdmaSetup, index: nat)
      requires Valid() && c < CHANNELS && index < |Pattern(s.dmap)|
      modifies Repr()
      ensures Valid() && View() == HdmaUnit(old(View()), cartridge, c, s, index)
    {
      ghost var v := View();
      var t := UnitTransfer(s, index, hdmaIndirectAddress[c], hdmaTableAddress[c]);
      if (s.dmap / 0x40) % 2 == 1 {
        hdmaIndirectAddress[c] := (hdmaIndirectAddress[c] as int + 1) % 0x1_0000;
      } else {
        hdmaTableAddress[c] := (hdmaTableAddress[c] as int + 1) % 0x1_0000;
      }
      assert View() == v.(hdma := Advanced(v.hdma, c, (s.dmap / 0x40) % 2 == 1, 1));
      TransferDma(t);
    }

    // -------------------------------------------------------------------
    // Timer IRQ, auto-joypad, clock

    /** `#updateIRQ`: the timer IRQ fires when the step from the old position passes the programmed H/V position. */
    method UpdateIrq(beforeFrame: nat, beforeScanline: nat, beforeCycle: nat)
      requires Valid()
      modifies this
      ensures Valid() && View() == IrqUpdated(old(View()), beforeFrame, beforeScanline, beforeCycle)
    {
      var f := ppu.fields;
      var beforeAbsolute := AbsoluteCycle(beforeFrame, beforeScanline, beforeCycle);
      var afterAbsolute := AbsoluteCycle(f.frame, f.scanline, f.cycle);
      if IrqTriggered(ioRegs[..], beforeAbsolute, afterAbsolute) {
        st := st.(irqFlag := true, irqPending := true);
      }
    }

    /** `#autoJoypadPoll`: with NMITIMEN bit 0 set, both controllers latch and their words land in JOY1-JOY4. */
    method AutoJoypadPoll()
      requires Valid()
      modifies ioRegs, controller1, controller2
      ensures Valid() && View() == AutoJoypadPolled(old(View()))
    {
      if ioRegs[0] % 2 == 0 {
        return;
      }
      ghost var v := View();
      controller1.Latch();
      controller2.Latch();
      var p1 := controller1.GetLatchedState();
      var p2 := controller2.GetLatchedState();
      assert View() == v.(pad1 := PadLatched(v.pad1), pad2 := PadLatched(v.pad2));
      StoreJoypadWords(p1, p2);
    }

    /** JOY1L-JOY4H (0x4218-0x421F): the two words, then zeros. */
    method StoreJoypadWords(p1: word, p2: word)
      requires Valid()
      modifies ioRegs
      ensures Valid() && ioRegs[..] == JoypadRegisters(old(ioRegs[..]), p1, p2)
    {
      ioRegs[0x18] := p1 % 0x100;
      ioRegs[0x19] := (p1 / 0x100) % 0x100;
      ioRegs[0x1a] := p2 % 0x100;
      ioRegs[0x1b] := (p2 / 0x100) % 0x100;
      ioRegs[0x1c] := 0;
      ioRegs[0x1d] := 0;
      ioRegs[0x1e] := 0;
      ioRegs[0x1f] := 0;
    }

    /** `clock(cpuCycles)`: the CPU count, the PPU, the auto-joypad poll on reaching line 225, HDMA and the timer. */
    method Clock(cpuCycles: int)
      requires Valid() && InFrame(ppu.fields)
      modifies Repr()
      ensures Valid() && View() == Clocked(old(View()), cartridge, cpuCycles)
    {
      ghost var v0 := View();
      var cycles := cpuCycles % 0x1_0000_0000;
      var before := ppu.fields;
      ChargeCpu(cycles);
      ClockPpu(cycles * 6);
      ClockReachable(before, (cycles * 6) % 0x1_0000_0000);
      PollAfter(before);
      ClockHdma(before.frame, before.scanline);
      UpdateIrq(before.frame, before.scanline, before.cycle);
    }

    /** The auto-joypad poll of `clock` once the PPU has moved on from `before`. */
    method PollAfter(before: PpuFields)
      requires Valid()
      modifies ioRegs, controller1, controller2
      ensures Valid() && View() == PolledAfter(before, old(View()))
    {
      if CrossedScanline(before.frame, before.scanline, ppu.fields.frame, ppu.fields.scanline, VBLANK_START_LINE) {
        AutoJoypadPoll();
      }
    }

    /** `pollNMI`: the PPU's pending NMI, reported once. */
    method PollNmi() returns (pending: bool)
      requires Valid()
      modifies ppu
      ensures Valid() && (pending, View()) == NmiPolled(old(View()))
    {
      pending := ppu.PollNmi();
    }

    /** `pollIRQ`: the pending timer IRQ, reported once. */
    method PollIrq() returns (pending: bool)
      requires Valid()
      modifies this
      ensures Valid() && (pending, View()) == IrqPolled(old(View()))
    {
      if !st.irqPending {
        return false;
      }
      st := st.(irqPending := false);
      return true;
    }
  }
}
