/**
 * src/core/snes/snes-kernel.mjs: the SNES kernel. It builds the machine
 * (cartridge, bus, 65C816) from a ROM image, runs it frame by frame under an
 * iteration guard, keeps the frame count, the audio sample count and the
 * checksum of the last frame, routes button presses to the two controllers
 * and saves and restores the machine. The machine is a value of type `M`
 * reached through the functions of a `Machine`; a part's snapshot is a value
 * of type `S`.
 */
module SnesKernel {
  import opened Wrappers
  import opened Bits
  import opened Kernel
  import Checksum

  const GUARD: nat := 8_000_000
  const GUARD_MESSAGE: string := "SNES frame execution guard exceeded."
  const ROM_LOADED: string := "ROM loaded"

  /**
   * What the kernel calls on the machine: building it from a ROM image
   * (`new SNESCartridge`, `new SNESBus`, `new CPU65816`), the PPU's frame
   * counter and frame buffer, `cpu.step()`, `bus.clock(cycles)`, a
   * controller's `setButton` (which refuses an unknown name itself), and each
   * part's `saveState` and `loadState`.
   */
  datatype Machine<!M, !S> = Machine(
    boot: seq<byte> -> Result<M>,
    frame: M -> nat,
    pixels: M -> seq<int>,
    step: M -> (M, nat),
    clock: (M, nat) -> M,
    setButton: (M, nat, string, bool) -> (M, Outcome),
    save: (M, Part) -> S,
    load: (M, Part, S) -> (M, Outcome))

  /** One turn of the frame loop: one CPU instruction, then the bus clocked by its cycles. */
  function Turn<M, S>(mc: Machine<M, S>, m: M): M
  {
    var (m1, cycles) := mc.step(m);
    mc.clock(m1, cycles)
  }

  /** The SNES frame loop: `Turn`, under a guard of 8,000,000 turns. */
  function SnesLoop<M, S>(mc: Machine<M, S>): (lp: Loop<M>)
    ensures lp.guard == GUARD && lp.message == GUARD_MESSAGE
    ensures lp.frame == mc.frame && lp.pixels == mc.pixels
  {
    Loop(m => Turn(mc, m), mc.frame, mc.pixels, GUARD, GUARD_MESSAGE)
  }

  /** What `saveState` returns. */
  datatype Snapshot<S> = Snapshot(frameCount: int, audioSampleCount: int, lastFrameChecksum: Option<int>, cartridge: S, bus: S, cpu: S)

  /** The snapshot of machine `m` with the kernel's counters. */
  function TakeSnapshot<M, S>(mc: Machine<M, S>, m: M, frameCount: int, audioSampleCount: int, checksum: Option<int>): (r: Snapshot<S>)
    ensures r.frameCount == frameCount && r.audioSampleCount == audioSampleCount && r.lastFrameChecksum == checksum
    ensures r.cartridge == mc.save(m, CartridgePart) && r.bus == mc.save(m, BusPart) && r.cpu == mc.save(m, CpuPart)
  {
    Snapshot(frameCount, audioSampleCount, checksum, mc.save(m, CartridgePart), mc.save(m, BusPart), mc.save(m, CpuPart))
  }

  /**
   * The frame state `loadState` leaves when all three parts load: the loaded
   * machine, the frame count as `>>> 0` makes it, the saved checksum and a
   * copy of the PPU's frame buffer.
   */
  function Loaded<M, S>(mc: Machine<M, S>, m: M, state: Snapshot<S>): (r: Frames<M>)
    ensures r.m == m && r.frameCount == Checksum.ToUint32(state.frameCount) && r.checksum == state.lastFrameChecksum
    ensures r.frameBuffer == Some(Uint32Copy(mc.pixels(m))) && r.outcome == Done
  {
    Frames(m, Checksum.ToUint32(state.frameCount), Some(Uint32Copy(mc.pixels(m))), state.lastFrameChecksum, Done)
  }

  /**
   * Save, run, load, run again: when the snapshot of machine `m` loads back
   * into whatever machine `x` the run left, the counters saved were 32-bit
   * and the last frame buffer was the copy of `m`'s, the kernel is back on
   * the frame state it saved, and `n` more frames reach the same checksum
   * as they did the first time.
   */
  lemma ReplayFromSnapshot<M, S>(mc: Machine<M, S>, m: M, x: M, frameCount: int, audioSampleCount: int,
                                 checksum: Option<int>, n: nat)
    requires 0 <= frameCount < Checksum.TWO_32
    requires var s := TakeSnapshot(mc, m, frameCount, audioSampleCount, checksum);
      PartsLoaded(mc.load, x, s.cartridge, s.bus, s.cpu) == (m, Done)
    requires n > 0
    ensures var s := TakeSnapshot(mc, m, frameCount, audioSampleCount, checksum);
      var before := Frames(m, frameCount, Some(Uint32Copy(mc.pixels(m))), checksum, Done);
      && Loaded(mc, m, s) == before
      && FramesRun(SnesLoop(mc), Loaded(mc, m, s), n) == FramesRun(SnesLoop(mc), before, n)
  {
    assert Checksum.ToUint32(frameCount) == frameCount;
  }

  class SNESKernel<M, S> {
    const machine: Machine<M, S>
    var romData: Option<seq<byte>>
    /** The cartridge, bus and CPU, once a ROM has been loaded. */
    var core: Option<M>
    var frameCount: int
    var audioSampleCount: int
    var lastFrameBuffer: Option<seq<int>>
    var lastFrameChecksum: Option<int>
    var lastStatus: Option<string>

    /** A machine is only ever built from the ROM image the kernel holds. */
    ghost predicate Valid()
      reads this
    {
      core.Some? ==> romData.Some?
    }

    /** The kernel's frame state, with `outcome` as how the last call ended. */
    function Current(outcome: Outcome): Frames<M>
      reads this
      requires core.Some?
    {
      Frames(core.value, frameCount, lastFrameBuffer, lastFrameChecksum, outcome)
    }

    constructor (machine: Machine<M, S>)
      ensures Valid() && this.machine == machine
      ensures romData.None? && core.None? && lastStatus.None?
      ensures frameCount == 0 && audioSampleCount == 0 && lastFrameBuffer.None? && lastFrameChecksum.None?
    {
      this.machine := machine;
      romData := None;
      core := None;
      frameCount := 0;
      audioSampleCount := 0;
      lastFrameBuffer := None;
      lastFrameChecksum := None;
      lastStatus := None;
    }

    /**
     * `loadROMBuffer`: keeps the image and builds a new machine from it with
     * the counters cleared; a cartridge that cannot be built throws with the
     * image already kept.
     */
    method LoadRomBuffer(rom: seq<byte>) returns (outcome: Outcome)
      requires Valid()
      modifies this
      ensures Valid() && romData == Some(rom)
      ensures machine.boot(rom).Err? ==>
        && outcome == Fail(machine.boot(rom).error)
        && core == old(core) && frameCount == old(frameCount) && audioSampleCount == old(audioSampleCount)
        && lastFrameBuffer == old(lastFrameBuffer) && lastFrameChecksum == old(lastFrameChecksum) && lastStatus == old(lastStatus)
      ensures machine.boot(rom).Ok? ==>
        && outcome == Done && core == Some(machine.boot(rom).value) && frameCount == 0 && audioSampleCount == 0
        && lastFrameBuffer.None? && lastFrameChecksum.None? && lastStatus == Some(ROM_LOADED)
    {
      romData := Some(rom);
      var booted := machine.boot(rom);
      if booted.Err? {
        return Fail(booted.error);
      }
      core := Some(booted.value);
      frameCount := 0;
      audioSampleCount := 0;
      lastFrameBuffer := None;
      lastFrameChecksum := None;
      lastStatus := Some(ROM_LOADED);
      return Done;
    }

    /** `reset`: builds the machine again from the ROM image, with the counters cleared. */
    method Reset() returns (outcome: Outcome)
      requires Valid()
      modifies this
      ensures Valid()
      ensures romData == old(romData) && lastStatus == old(lastStatus)
      ensures old(core).None? ==> outcome == Fail(NO_ROM) && core.None?
      ensures old(core).Some? && machine.boot(romData.value).Err? ==>
        && outcome == Fail(machine.boot(romData.value).error) && core == old(core)
        && frameCount == old(frameCount) && audioSampleCount == old(audioSampleCount)
        && lastFrameBuffer == old(lastFrameBuffer) && lastFrameChecksum == old(lastFrameChecksum)
      ensures old(core).Some? && machine.boot(romData.value).Ok? ==>
        && outcome == Done && core == Some(machine.boot(romData.value).value)
        && frameCount == 0 && audioSampleCount == 0 && lastFrameBuffer.None? && lastFrameChecksum.None?
    {
      if core.None? {
        return Fail(NO_ROM);
      }
      var booted := machine.boot(romData.value);
      if booted.Err? {
        return Fail(booted.error);
      }
      core := Some(booted.value);
      frameCount := 0;
      audioSampleCount := 0;
      lastFrameBuffer := None;
      lastFrameChecksum := None;
      return Done;
    }

    /**
     * `runFrame`: steps the CPU and clocks the bus until the PPU's frame
     * counter passes its value at the start, counting the guard down on
     * every turn. The frame state afterwards is `AfterFrame` of the frame
     * state before.
     */
    method RunFrame() returns (outcome: Outcome)
      requires Valid()
      modifies this
      ensures Valid()
      ensures romData == old(romData) && lastStatus == old(lastStatus) && audioSampleCount == old(audioSampleCount)
      ensures old(core).None? ==>
        && outcome == Fail(NO_ROM) && core.None? && frameCount == old(frameCount)
        && lastFrameBuffer == old(lastFrameBuffer) && lastFrameChecksum == old(lastFrameChecksum)
      ensures old(core).Some? ==> core.Some? && Current(outcome) == AfterFrame(SnesLoop(machine), old(Current(Done)))
    {
      if core.None? {
        return Fail(NO_ROM);
      }
      var lp := SnesLoop(machine);
      ghost var entry := Current(Done);
      ghost var start := core.value;
      var m := core.value;
      var target := machine.frame(m) + 1;
      var guard := GUARD;
      while machine.frame(m) < target
        invariant 0 < guard <= GUARD && unchanged(this)
        invariant machine.frame(m) < target ==>
          FrameLoop(lp.body, lp.frame, start, target, GUARD) == FrameLoop(lp.body, lp.frame, m, target, guard)
        invariant machine.frame(m) >= target ==> FrameLoop(lp.body, lp.frame, start, target, GUARD) == Finished(m)
        decreases guard
      {
        ghost var before := m;
        var stepped := machine.step(m);
        m := machine.clock(stepped.0, stepped.1);
        assert m == lp.body(before);
        guard := guard - 1;
        if guard == 0 {
          assert FrameLoop(lp.body, lp.frame, entry.m, lp.frame(entry.m) + 1, lp.guard) == GuardExceeded(m);
          AfterFrameGuard(lp, entry, m);
          core := Some(m);
          return Fail(Error(lp.message));
        }
      }
      assert FrameLoop(lp.body, lp.frame, entry.m, lp.frame(entry.m) + 1, lp.guard) == Finished(m);
      var copy := Uint32Copy(machine.pixels(m));
      var sum := Checksum.Checksum32(copy);
      core := Some(m);
      frameCount := machine.frame(m);
      lastFrameBuffer := Some(copy);
      lastFrameChecksum := Some(sum);
      AfterFrameFinished(lp, entry, m);
      return Done;
    }

    /**
     * `runFrames`: refuses anything but a positive integer before it runs a
     * frame, and otherwise runs `runFrame` that many times, stopping at the
     * first one that throws.
     */
    method RunFrames(count: real) returns (outcome: Outcome)
      requires Valid()
      modifies this
      ensures Valid()
      ensures romData == old(romData) && lastStatus == old(lastStatus) && audioSampleCount == old(audioSampleCount)
      ensures old(core).None? ==>
        && outcome == Fail(NO_ROM) && core.None? && frameCount == old(frameCount)
        && lastFrameBuffer == old(lastFrameBuffer) && lastFrameChecksum == old(lastFrameChecksum)
      ensures old(core).Some? && !PositiveInteger(count) ==>
        && outcome == Fail(BAD_FRAME_COUNT) && core == old(core)
        && frameCount == old(frameCount) && lastFrameBuffer == old(lastFrameBuffer) && lastFrameChecksum == old(lastFrameChecksum)
      ensures old(core).Some? && PositiveInteger(count) ==>
        core.Some? && Current(outcome) == FramesRun(SnesLoop(machine), old(Current(Done)), count.Floor)
    {
      if core.None? {
        return Fail(NO_ROM);
      }
      if !PositiveInteger(count) {
        return Fail(BAD_FRAME_COUNT);
      }
      var lp := SnesLoop(machine);
      var n: nat := count.Floor;
      ghost var start := Current(Done);
      var index := 0;
      while index < n
        invariant 0 <= index <= n && Valid() && core.Some?
        invariant romData == old(romData) && lastStatus == old(lastStatus) && audioSampleCount == old(audioSampleCount)
        invariant FramesRun(lp, Current(Done), n - index) == FramesRun(lp, start, n)
      {
        ghost var before := Current(Done);
        var o := RunFrame();
        assert Current(o) == AfterFrame(lp, before);
        if o.Fail? {
          return o;
        }
        index := index + 1;
      }
      return Done;
    }

    /**
     * `#setButton`: checks that a machine exists and that the player is 1
     * or 2, and only then hands the name as given to that player's
     * controller, which decides whether it names a button.
     */
    method SetButton(player: real, name: string, pressed: bool) returns (outcome: Outcome)
      requires Valid()
      modifies this
      ensures Valid()
      ensures romData == old(romData) && lastStatus == old(lastStatus) && audioSampleCount == old(audioSampleCount)
      ensures frameCount == old(frameCount) && lastFrameBuffer == old(lastFrameBuffer) && lastFrameChecksum == old(lastFrameChecksum)
      ensures old(core).None? ==> outcome == Fail(NO_ROM) && core.None?
      ensures old(core).Some? && !ValidPlayer(player) ==> outcome == Fail(BAD_PLAYER) && core == old(core)
      ensures old(core).Some? && ValidPlayer(player) ==>
        && core == Some(machine.setButton(old(core).value, PlayerIndex(player), name, pressed).0)
        && outcome == machine.setButton(old(core).value, PlayerIndex(player), name, pressed).1
    {
      if core.None? {
        return Fail(NO_ROM);
      }
      if !ValidPlayer(player) {
        return Fail(BAD_PLAYER);
      }
      var changed := machine.setButton(core.value, PlayerIndex(player), name, pressed);
      core := Some(changed.0);
      return changed.1;
    }

    /** `pressButton`: `#setButton` with the button held. */
    method PressButton(player: real, name: string) returns (outcome: Outcome)
      requires Valid()
      modifies this
      ensures Valid()
      ensures romData == old(romData) && lastStatus == old(lastStatus) && audioSampleCount == old(audioSampleCount)
      ensures frameCount == old(frameCount) && lastFrameBuffer == old(lastFrameBuffer) && lastFrameChecksum == old(lastFrameChecksum)
      ensures old(core).None? ==> outcome == Fail(NO_ROM) && core.None?
      ensures old(core).Some? && !ValidPlayer(player) ==> outcome == Fail(BAD_PLAYER) && core == old(core)
      ensures old(core).Some? && ValidPlayer(player) ==>
        && core == Some(machine.setButton(old(core).value, PlayerIndex(player), name, true).0)
        && outcome == machine.setButton(old(core).value, PlayerIndex(player), name, true).1
    {
      outcome := SetButton(player, name, true);
    }

    /** `releaseButton`: `#setButton` with the button let go. */
    method ReleaseButton(player: real, name: string) returns (outcome: Outcome)
      requires Valid()
      modifies this
      ensures Valid()
      ensures romData == old(romData) && lastStatus == old(lastStatus) && audioSampleCount == old(audioSampleCount)
      ensures frameCount == old(frameCount) && lastFrameBuffer == old(lastFrameBuffer) && lastFrameChecksum == old(lastFrameChecksum)
      ensures old(core).None? ==> outcome == Fail(NO_ROM) && core.None?
      ensures old(core).Some? && !ValidPlayer(player) ==> outcome == Fail(BAD_PLAYER) && core == old(core)
      ensures old(core).Some? && ValidPlayer(player) ==>
        && core == Some(machine.setButton(old(core).value, PlayerIndex(player), name, false).0)
        && outcome == machine.setButton(old(core).value, PlayerIndex(player), name, false).1
    {
      outcome := SetButton(player, name, false);
    }

    /** `saveState`: the counters and the three parts' snapshots; nothing changes. */
    method SaveState() returns (r: Result<Snapshot<S>>)
      ensures core.None? ==> r == Err(NO_ROM)
      ensures core.Some? ==> r == Ok(TakeSnapshot(machine, core.value, frameCount, audioSampleCount, lastFrameChecksum))
    {
      if core.None? {
        return Err(NO_ROM);
      }
      return Ok(TakeSnapshot(machine, core.value, frameCount, audioSampleCount, lastFrameChecksum));
    }

    /**
     * `loadState`: loads the cartridge, the bus and the CPU from their
     * snapshots, in that order, then takes the counters through `>>> 0`, the
     * checksum as it is, and a copy of the loaded PPU's frame buffer. A part
     * that throws leaves the parts before it loaded and the counters as they
     * were.
     */
    method LoadState(state: Snapshot<S>) returns (outcome: Outcome)
      requires Valid()
      modifies this
      ensures Valid()
      ensures romData == old(romData) && lastStatus == old(lastStatus)
      ensures old(core).None? ==>
        && outcome == Fail(NO_ROM) && core.None? && frameCount == old(frameCount) && audioSampleCount == old(audioSampleCount)
        && lastFrameBuffer == old(lastFrameBuffer) && lastFrameChecksum == old(lastFrameChecksum)
      ensures old(core).Some? ==>
        var (m, o) := PartsLoaded(machine.load, old(core).value, state.cartridge, state.bus, state.cpu);
        && core == Some(m) && outcome == o
        && (o.Done? ==> Current(Done) == Loaded(machine, m, state) && audioSampleCount == Checksum.ToUint32(state.audioSampleCount))
        && (o.Fail? ==> && frameCount == old(frameCount) && audioSampleCount == old(audioSampleCount)
                        && lastFrameBuffer == old(lastFrameBuffer) && lastFrameChecksum == old(lastFrameChecksum))
    {
      if core.None? {
        return Fail(NO_ROM);
      }
      var loaded := machine.load(core.value, CartridgePart, state.cartridge);
      core := Some(loaded.0);
      if loaded.1.Fail? {
        return loaded.1;
      }
      loaded := machine.load(core.value, BusPart, state.bus);
      core := Some(loaded.0);
      if loaded.1.Fail? {
        return loaded.1;
      }
      loaded := machine.load(core.value, CpuPart, state.cpu);
      core := Some(loaded.0);
      if loaded.1.Fail? {
        return loaded.1;
      }
      frameCount := Checksum.ToUint32(state.frameCount);
      audioSampleCount := Checksum.ToUint32(state.audioSampleCount);
      lastFrameChecksum := state.lastFrameChecksum;
      lastFrameBuffer := Some(Uint32Copy(machine.pixels(core.value)));
      return Done;
    }
  }
}
