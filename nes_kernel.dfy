/**
 * src/core/nes-kernel.mjs: the NES kernel. It builds the machine (cartridge,
 * bus, CPU) from a ROM image, runs it frame by frame under an iteration
 * guard, keeps the frame count and the checksum of the last frame, routes
 * button presses to the two controllers and saves and restores the machine.
 * The machine is a value of type `M` reached through the functions of a
 * `Machine`; a part's snapshot is a value of type `S`.
 */
module NesKernel {
  import opened Wrappers
  import opened Bits
  import opened JsString
  import opened INes
  import opened NesController
  import opened Kernel
  import Checksum

  const GUARD: nat := 2_000_000
  const GUARD_MESSAGE: string := "Frame execution guard exceeded."
  const ROM_LOADED: string := "ROM loaded"

  /**
   * What the kernel calls on the machine: building it from a ROM image
   * (`new Cartridge`, `new Bus`, `new CPU6502`), the PPU's frame counter and
   * frame buffer, `bus.consumeStallCycles()`, `cpu.totalCycles += stall`,
   * `cpu.step()`, `bus.clock(cycles)`, a controller's `setButton`, and each
   * part's `saveState` and `loadState`.
   */
  datatype Machine<!M, !S> = Machine(
    boot: seq<byte> -> Result<M>,
    frame: M -> nat,
    pixels: M -> seq<int>,
    consumeStall: M -> (M, nat),
    chargeStall: (M, nat) -> M,
    step: M -> (M, nat),
    clock: (M, nat) -> M,
    setButton: (M, nat, string, bool) -> M,
    save: (M, Part) -> S,
    load: (M, Part, S) -> (M, Outcome))

  /**
   * One turn of the frame loop: pending stall cycles are all consumed at
   * once, charged to the CPU and clocked through the bus; without a stall
   * the CPU runs one instruction and the bus is clocked by its cycles.
   */
  function Turn<M, S>(mc: Machine<M, S>, m: M): M
  {
    var (m1, stall) := mc.consumeStall(m);
    if stall > 0 then mc.clock(mc.chargeStall(m1, stall), stall)
    else
      var (m2, cycles) := mc.step(m1);
      mc.clock(m2, cycles)
  }

  /** The NES frame loop: `Turn`, under a guard of 2,000,000 turns. */
  function NesLoop<M, S>(mc: Machine<M, S>): (lp: Loop<M>)
    ensures lp.guard == GUARD && lp.message == GUARD_MESSAGE
    ensures lp.frame == mc.frame && lp.pixels == mc.pixels
  {
    Loop(m => Turn(mc, m), mc.frame, mc.pixels, GUARD, GUARD_MESSAGE)
  }

  /** What `saveState` returns. */
  datatype Snapshot<S> = Snapshot(frameCount: int, lastFrameChecksum: Option<int>, cartridge: S, bus: S, cpu: S)

  /** The snapshot of machine `m` with the kernel's counters. */
  function TakeSnapshot<M, S>(mc: Machine<M, S>, m: M, frameCount: int, checksum: Option<int>): (r: Snapshot<S>)
    ensures r.frameCount == frameCount && r.lastFrameChecksum == checksum
    ensures r.cartridge == mc.save(m, CartridgePart) && r.bus == mc.save(m, BusPart) && r.cpu == mc.save(m, CpuPart)
  {
    Snapshot(frameCount, checksum, mc.save(m, CartridgePart), mc.save(m, BusPart), mc.save(m, CpuPart))
  }

  /**
   * Loading a machine's own snapshot gives the machine back, when each of
   * its parts restores from its own snapshot.
   */
  lemma SnapshotRoundTrip<M, S>(mc: Machine<M, S>, m: M, frameCount: int, checksum: Option<int>)
    requires Restores(mc.save, mc.load, m)
    ensures var s := TakeSnapshot(mc, m, frameCount, checksum);
      PartsLoaded(mc.load, m, s.cartridge, s.bus, s.cpu) == (m, Done)
  {
    PartsRoundTrip(mc.save, mc.load, m);
  }

  /** A word of capital letters is already trimmed and upper case. */
  lemma CapitalsNormal(b: string)
    requires |b| > 0 && IsUpperAscii(b)
    ensures Normalize(b) == b
  {
    assert "" + b + "" == b;
    TrimPadded("", b, "");
    UpperKeepsCapitals(b);
  }

  /** Every name in `BUTTON_ORDER` is already trimmed and upper case. */
  lemma ButtonNamesNormal()
    ensures forall i :: 0 <= i < |BUTTON_ORDER| ==> Normalize(BUTTON_ORDER[i]) == BUTTON_ORDER[i]
  {
    forall i | 0 <= i < |BUTTON_ORDER|
      ensures Normalize(BUTTON_ORDER[i]) == BUTTON_ORDER[i]
    {
      CapitalsNormal(BUTTON_ORDER[i]);
    }
  }

  /**
   * The kernel hands the controller the normalized name; the controller
   * normalizes it again and picks the same button as it would have for the
   * name the caller gave.
   */
  lemma NormalizedButtonKept(name: string)
    requires Normalize(name) in BUTTON_ORDER
    ensures ButtonBit(Normalize(name)) == ButtonBit(name)
    ensures ButtonBit(name).Some?
  {
    ButtonNamesNormal();
    var i :| 0 <= i < |BUTTON_ORDER| && BUTTON_ORDER[i] == Normalize(name);
    assert Normalize(Normalize(name)) == Normalize(name);
  }

  class NESKernel<M, S> {
    const machine: Machine<M, S>
    var romData: Option<seq<byte>>
    var romMetadata: Option<Header>
    /** The cartridge, bus and CPU, once a ROM has been loaded. */
    var core: Option<M>
    var frameCount: int
    var lastFrameBuffer: Option<seq<int>>
    var lastFrameChecksum: Option<int>
    var lastStatus: Option<string>

    /** A machine is only ever built from the ROM image the kernel holds. */
    ghost predicate Valid()
      reads this
    {
      core.Some? ==> romData.Some?
    }

    /** The kernel's frame state, with `outcome` as how the last call ended. */
    function Current(outcome: Outcome): Frames<M>
      reads this
      requires core.Some?
    {
      Frames(core.value, frameCount, lastFrameBuffer, lastFrameChecksum, outcome)
    }

    constructor (machine: Machine<M, S>)
      ensures Valid() && this.machine == machine
      ensures romData.None? && romMetadata.None? && core.None? && lastStatus.None?
      ensures frameCount == 0 && lastFrameBuffer.None? && lastFrameChecksum.None?
    {
      this.machine := machine;
      romData := None;
      romMetadata := None;
      core := None;
      frameCount := 0;
      lastFrameBuffer := None;
      lastFrameChecksum := None;
      lastStatus := None;
    }

    /**
     * `loadROMBuffer`: keeps the image, parses its iNES header and builds a
     * new machine from it with the counters cleared. A header that does not
     * parse, or a cartridge that cannot be built, throws after the steps
     * before it took effect.
     */
    method LoadRomBuffer(rom: seq<byte>) returns (r: Result<Header>)
      requires Valid()
      modifies this
      ensures Valid() && romData == Some(rom)
      ensures ParseINESHeader(rom).Err? ==>
        && r == Err(ParseINESHeader(rom).error)
        && romMetadata == old(romMetadata) && core == old(core) && frameCount == old(frameCount)
        && lastFrameBuffer == old(lastFrameBuffer) && lastFrameChecksum == old(lastFrameChecksum) && lastStatus == old(lastStatus)
      ensures ParseINESHeader(rom).Ok? ==> romMetadata == Some(ParseINESHeader(rom).value)
      ensures ParseINESHeader(rom).Ok? && machine.boot(rom).Err? ==>
        && r == Err(machine.boot(rom).error)
        && core == old(core) && frameCount == old(frameCount)
        && lastFrameBuffer == old(lastFrameBuffer) && lastFrameChecksum == old(lastFrameChecksum) && lastStatus == old(lastStatus)
      ensures ParseINESHeader(rom).Ok? && machine.boot(rom).Ok? ==>
        && r == Ok(ParseINESHeader(rom).value)
        && core == Some(machine.boot(rom).value) && frameCount == 0
        && lastFrameBuffer.None? && lastFrameChecksum.None? && lastStatus == Some(ROM_LOADED)
    {
      romData := Some(rom);
      var header := ParseINESHeader(rom);
      if header.Err? {
        return Err(header.error);
      }
      romMetadata := Some(header.value);
      var booted := machine.boot(rom);
      if booted.Err? {
        return Err(booted.error);
      }
      core := Some(booted.value);
      frameCount := 0;
      lastFrameBuffer := None;
      lastFrameChecksum := None;
      lastStatus := Some(ROM_LOADED);
      return Ok(header.value);
    }

    /** `reset`: builds the machine again from the ROM image, with the counters cleared. */
    method Reset() returns (outcome: Outcome)
      requires Valid()
      modifies this
      ensures Valid()
      ensures romData == old(romData) && romMetadata == old(romMetadata) && lastStatus == old(lastStatus)
      ensures old(core).None? ==> outcome == Fail(NO_ROM) && core.None?
      ensures old(core).Some? && machine.boot(romData.value).Err? ==>
        && outcome == Fail(machine.boot(romData.value).error) && core == old(core)
        && frameCount == old(frameCount) && lastFrameBuffer == old(lastFrameBuffer) && lastFrameChecksum == old(lastFrameChecksum)
      ensures old(core).Some? && machine.boot(romData.value).Ok? ==>
        && outcome == Done && core == Some(machine.boot(romData.value).value)
        && frameCount == 0 && lastFrameBuffer.None? && lastFrameChecksum.None?
    {
      if core.None? {
        return Fail(NO_ROM);
      }
      var booted := machine.boot(romData.value);
      if booted.Err? {
        return Fail(booted.error);
      }
      core := Some(booted.value);
      frameCount := 0;
      lastFrameBuffer := None;
      lastFrameChecksum := None;
      return Done;
    }

    /**
     * `runFrame`: turns the loop until the PPU's frame counter passes its
     * value at the start, counting the guard down on every turn. The frame
     * state afterwards is `AfterFrame` of the frame state before.
     */
    method RunFrame() returns (outcome: Outcome)
      requires Valid()
      modifies this
      ensures Valid()
      ensures romData == old(romData) && romMetadata == old(romMetadata) && lastStatus == old(lastStatus)
      ensures old(core).None? ==>
        && outcome == Fail(NO_ROM) && core.None? && frameCount == old(frameCount)
        && lastFrameBuffer == old(lastFrameBuffer) && lastFrameChecksum == old(lastFrameChecksum)
      ensures old(core).Some? ==> core.Some? && Current(outcome) == AfterFrame(NesLoop(machine), old(Current(Done)))
    {
      if core.None? {
        return Fail(NO_ROM);
      }
      var lp := NesLoop(machine);
      ghost var entry := Current(Done);
      ghost var start := core.value;
      var m := core.value;
      var target := machine.frame(m) + 1;
      var guard := GUARD;
      while machine.frame(m) < target
        invariant 0 < guard <= GUARD && unchanged(this)
        invariant machine.frame(m) < target ==>
          FrameLoop(lp.body, lp.frame, start, target, GUARD) == FrameLoop(lp.body, lp.frame, m, target, guard)
        invariant machine.frame(m) >= target ==> FrameLoop(lp.body, lp.frame, start, target, GUARD) == Finished(m)
        decreases guard
      {
        ghost var before := m;
        var stalled := machine.consumeStall(m);
        m := stalled.0;
        var stall := stalled.1;
        if stall > 0 {
          m := machine.chargeStall(m, stall);
          m := machine.clock(m, stall);
        } else {
          var stepped := machine.step(m);
          m := stepped.0;
          m := machine.clock(m, stepped.1);
        }
        assert m == lp.body(before);
        guard := guard - 1;
        if guard == 0 {
          assert FrameLoop(lp.body, lp.frame, entry.m, lp.frame(entry.m) + 1, lp.guard) == GuardExceeded(m);
          AfterFrameGuard(lp, entry, m);
          core := Some(m);
          return Fail(Error(lp.message));
        }
      }
      assert FrameLoop(lp.body, lp.frame, entry.m, lp.frame(entry.m) + 1, lp.guard) == Finished(m);
      var copy := Uint32Copy(machine.pixels(m));
      var sum := Checksum.Checksum32(copy);
      core := Some(m);
      frameCount := machine.frame(m);
      lastFrameBuffer := Some(copy);
      lastFrameChecksum := Some(sum);
      AfterFrameFinished(lp, entry, m);
      return Done;
    }

    /**
     * `runFrames`: refuses anything but a positive integer before it runs a
     * frame, and otherwise runs `runFrame` that many times, stopping at the
     * first one that throws.
     */
    method RunFrames(count: real) returns (outcome: Outcome)
      requires Valid()
      modifies this
      ensures Valid()
      ensures romData == old(romData) && romMetadata == old(romMetadata) && lastStatus == old(lastStatus)
      ensures old(core).None? ==>
        && outcome == Fail(NO_ROM) && core.None? && frameCount == old(frameCount)
        && lastFrameBuffer == old(lastFrameBuffer) && lastFrameChecksum == old(lastFrameChecksum)
      ensures old(core).Some? && !PositiveInteger(count) ==>
        && outcome == Fail(BAD_FRAME_COUNT) && core == old(core)
        && frameCount == old(frameCount) && lastFrameBuffer == old(lastFrameBuffer) && lastFrameChecksum == old(lastFrameChecksum)
      ensures old(core).Some? && PositiveInteger(count) ==>
        core.Some? && Current(outcome) == FramesRun(NesLoop(machine), old(Current(Done)), count.Floor)
    {
      if core.None? {
        return Fail(NO_ROM);
      }
      if !PositiveInteger(count) {
        return Fail(BAD_FRAME_COUNT);
      }
      var lp := NesLoop(machine);
      var n: nat := count.Floor;
      ghost var start := Current(Done);
      var index := 0;
      while index < n
        invariant 0 <= index <= n && Valid() && core.Some?
        invariant romData == old(romData) && romMetadata == old(romMetadata) && lastStatus == old(lastStatus)
        invariant FramesRun(lp, Current(Done), n - index) == FramesRun(lp, start, n)
      {
        ghost var before := Current(Done);
        var o := RunFrame();
        assert Current(o) == AfterFrame(lp, before);
        if o.Fail? {
          return o;
        }
        index := index + 1;
      }
      return Done;
    }

    /**
     * `#setButton`: checks that a machine exists, that the player is 1 or 2
     * and that the trimmed, upper-cased name is a button, in that order, and
     * only then hands the normalized name to that player's controller.
     */
    method SetButton(player: real, name: string, pressed: bool) returns (outcome: Outcome)
      requires Valid()
      modifies this
      ensures Valid()
      ensures romData == old(romData) && romMetadata == old(romMetadata) && lastStatus == old(lastStatus)
      ensures frameCount == old(frameCount) && lastFrameBuffer == old(lastFrameBuffer) && lastFrameChecksum == old(lastFrameChecksum)
      ensures old(core).None? ==> outcome == Fail(NO_ROM) && core.None?
      ensures old(core).Some? && !ValidPlayer(player) ==> outcome == Fail(BAD_PLAYER) && core == old(core)
      ensures old(core).Some? && ValidPlayer(player) && ButtonBit(name).None? ==>
        outcome == Fail(UnsupportedButton(name)) && core == old(core)
      ensures old(core).Some? && ValidPlayer(player) && ButtonBit(name).Some? ==>
        outcome == Done && core == Some(machine.setButton(old(core).value, PlayerIndex(player), Normalize(name), pressed))
    {
      if core.None? {
        return Fail(NO_ROM);
      }
      if !ValidPlayer(player) {
        return Fail(BAD_PLAYER);
      }
      var normalized := Normalize(name);
      if normalized !in BUTTON_ORDER {
        return Fail(UnsupportedButton(name));
      }
      core := Some(machine.setButton(core.value, PlayerIndex(player), normalized, pressed));
      return Done;
    }

    /** `pressButton`: `#setButton` with the button held. */
    method PressButton(player: real, name: string) returns (outcome: Outcome)
      requires Valid()
      modifies this
      ensures Valid()
      ensures romData == old(romData) && romMetadata == old(romMetadata) && lastStatus == old(lastStatus)
      ensures frameCount == old(frameCount) && lastFrameBuffer == old(lastFrameBuffer) && lastFrameChecksum == old(lastFrameChecksum)
      ensures old(core).None? ==> outcome == Fail(NO_ROM) && core.None?
      ensures old(core).Some? && !ValidPlayer(player) ==> outcome == Fail(BAD_PLAYER) && core == old(core)
      ensures old(core).Some? && ValidPlayer(player) && ButtonBit(name).None? ==>
        outcome == Fail(UnsupportedButton(name)) && core == old(core)
      ensures old(core).Some? && ValidPlayer(player) && ButtonBit(name).Some? ==>
        outcome == Done && core == Some(machine.setButton(old(core).value, PlayerIndex(player), Normalize(name), true))
    {
      outcome := SetButton(player, name, true);
    }

    /** `releaseButton`: `#setButton` with the button let go. */
    method ReleaseButton(player: real, name: string) returns (outcome: Outcome)
      requires Valid()
      modifies this
      ensures Valid()
      ensures romData == old(romData) && romMetadata == old(romMetadata) && lastStatus == old(lastStatus)
      ensures frameCount == old(frameCount) && lastFrameBuffer == old(lastFrameBuffer) && lastFrameChecksum == old(lastFrameChecksum)
      ensures old(core).None? ==> outcome == Fail(NO_ROM) && core.None?
      ensures old(core).Some? && !ValidPlayer(player) ==> outcome == Fail(BAD_PLAYER) && core == old(core)
      ensures old(core).Some? && ValidPlayer(player) && ButtonBit(name).None? ==>
        outcome == Fail(UnsupportedButton(name)) && core == old(core)
      ensures old(core).Some? && ValidPlayer(player) && ButtonBit(name).Some? ==>
        outcome == Done && core == Some(machine.setButton(old(core).value, PlayerIndex(player), Normalize(name), false))
    {
      outcome := SetButton(player, name, false);
    }

    /** `saveState`: the counters and the three parts' snapshots; nothing changes. */
    method SaveState() returns (r: Result<Snapshot<S>>)
      ensures core.None? ==> r == Err(NO_ROM)
      ensures core.Some? ==> r == Ok(TakeSnapshot(machine, core.value, frameCount, lastFrameChecksum))
    {
      if core.None? {
        return Err(NO_ROM);
      }
      return Ok(TakeSnapshot(machine, core.value, frameCount, lastFrameChecksum));
    }

    /**
     * `loadState`: loads the cartridge, the bus and the CPU from their
     * snapshots, in that order, then takes the frame count and checksum as
     * they are. A part that throws leaves the parts before it loaded and the
     * counters as they were. The last frame buffer is kept.
     */
    method LoadState(state: Snapshot<S>) returns (outcome: Outcome)
      requires Valid()
      modifies this
      ensures Valid()
      ensures romData == old(romData) && romMetadata == old(romMetadata) && lastStatus == old(lastStatus)
      ensures lastFrameBuffer == old(lastFrameBuffer)
      ensures old(core).None? ==>
        && outcome == Fail(NO_ROM) && core.None? && frameCount == old(frameCount)
        && lastFrameChecksum == old(lastFrameChecksum)
      ensures old(core).Some? ==>
        var (m, o) := PartsLoaded(machine.load, old(core).value, state.cartridge, state.bus, state.cpu);
        && core == Some(m) && outcome == o
        && (o.Done? ==> frameCount == state.frameCount && lastFrameChecksum == state.lastFrameChecksum)
        && (o.Fail? ==> frameCount == old(frameCount) && lastFrameChecksum == old(lastFrameChecksum))
    {
      if core.None? {
        return Fail(NO_ROM);
      }
      var loaded := machine.load(core.value, CartridgePart, state.cartridge);
      core := Some(loaded.0);
      if loaded.1.Fail? {
        return loaded.1;
      }
      loaded := machine.load(core.value, BusPart, state.bus);
      core := Some(loaded.0);
      if loaded.1.Fail? {
        return loaded.1;
      }
      loaded := machine.load(core.value, CpuPart, state.cpu);
      core := Some(loaded.0);
      if loaded.1.Fail? {
        return loaded.1;
      }
      frameCount := state.frameCount;
      lastFrameChecksum := state.lastFrameChecksum;
      return Done;
    }
  }
}
