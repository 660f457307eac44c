/**
 * What the NES and SNES kernels (src/core/nes-kernel.mjs,
 * src/core/snes/snes-kernel.mjs) have in common: the frame loop with its
 * iteration guard, the frame count and checksum kept after each frame,
 * `runFrames`, and the order in which a snapshot's parts are loaded. The
 * machine behind a kernel is a value of type `M`; the kernel reaches it only
 * through the functions it calls on it.
 */
module Kernel {
  import opened Wrappers
  import opened Checksum

  const NO_ROM: JsError := Error("No ROM loaded. Call loadROMBuffer() first.")
  const BAD_FRAME_COUNT: JsError := RangeError("frameCount must be a positive integer.")
  const BAD_PLAYER: JsError := RangeError("player must be 1 or 2.")

  /** `Number.isInteger(x)` on a finite number. */
  predicate IsInteger(x: real)
  {
    x.Floor as real == x
  }

  /** What `runFrames` accepts: an integer of at least 1. */
  predicate PositiveInteger(x: real)
  {
    IsInteger(x) && x > 0.0
  }

  /** What `#setButton` accepts as a player: the integers 1 and 2. */
  predicate ValidPlayer(x: real)
  {
    IsInteger(x) && 1.0 <= x <= 2.0
  }

  /** The player's controller index, `player - 1`. */
  function PlayerIndex(x: real): (r: nat)
    requires ValidPlayer(x)
    ensures r < 2 && r as real == x - 1.0
  {
    x.Floor - 1
  }

  /** `Uint32Array.from(frameBuffer)`: every pixel is stored as `v >>> 0`. */
  function Uint32Copy(pixels: seq<int>): (r: seq<int>)
    ensures |r| == |pixels| && forall i :: 0 <= i < |r| ==> r[i] == ToUint32(pixels[i])
  {
    seq(|pixels|, i requires 0 <= i < |pixels| => ToUint32(pixels[i]))
  }

  /**
   * One kernel's frame loop: its body (what one turn does to the machine),
   * the PPU's frame counter, the PPU's frame buffer, the guard's starting
   * value and the message thrown when it runs out.
   */
  datatype Loop<!M> = Loop(body: M -> M, frame: M -> nat, pixels: M -> seq<int>, guard: nat, message: string)

  /** The machine after `k` turns of the loop's body. */
  function Iterate<M>(body: M -> M, m: M, k: nat): M
  {
    if k == 0 then m else body(Iterate(body, m, k - 1))
  }

  /** Turning once and then `k` times is turning `k + 1` times. */
  lemma {:induction false} IterateShift<M>(body: M -> M, m: M, k: nat)
    ensures Iterate(body, body(m), k) == Iterate(body, m, k + 1)
  {
    if k > 0 {
      IterateShift(body, m, k - 1);
    }
  }

  /** How the frame loop ends: the frame was completed, or the guard reached 0. */
  datatype FrameEnd<M> = Finished(m: M) | GuardExceeded(m: M)

  /**
   * The loop of `runFrame` with `guard` turns left: a turn runs the body,
   * then counts the guard down and throws when it reaches 0, whether or not
   * that turn completed the frame; otherwise the loop goes on while the
   * frame counter is below `target`.
   */
  function FrameLoop<M>(body: M -> M, frame: M -> nat, m: M, target: nat, guard: nat): FrameEnd<M>
    requires guard > 0
    decreases guard
  {
    var next := body(m);
    if guard == 1 then GuardExceeded(next)
    else if frame(next) >= target then Finished(next)
    else FrameLoop(body, frame, next, target, guard - 1)
  }

  /** Turn `i` is the first of the loop's turns from `m` that brings the frame counter to `target`. */
  ghost predicate FirstReach<M>(body: M -> M, frame: M -> nat, m: M, target: nat, i: nat)
  {
    && 1 <= i && frame(Iterate(body, m, i)) >= target
    && forall j :: 1 <= j < i ==> frame(Iterate(body, m, j)) < target
  }

  /**
   * The frame loop in terms of the turns it makes. It throws exactly when
   * none of the first `guard - 1` turns reaches `target`, and then it has
   * made exactly `guard` turns. Otherwise it stops after the first turn that
   * reaches `target`.
   */
  lemma {:induction false} FrameLoopIterates<M>(body: M -> M, frame: M -> nat, m: M, target: nat, guard: nat)
    requires guard > 0
    ensures FrameLoop(body, frame, m, target, guard).GuardExceeded? <==>
      forall i :: 1 <= i < guard ==> frame(Iterate(body, m, i)) < target
    ensures FrameLoop(body, frame, m, target, guard).GuardExceeded? ==>
      FrameLoop(body, frame, m, target, guard).m == Iterate(body, m, guard)
    ensures FrameLoop(body, frame, m, target, guard).Finished? ==>
      exists i: nat :: i < guard && FirstReach(body, frame, m, target, i) && FrameLoop(body, frame, m, target, guard).m == Iterate(body, m, i)
    decreases guard
  {
    var next := body(m);
    assert Iterate(body, m, 1) == next;
    if guard == 1 {
    } else if frame(next) >= target {
      assert FirstReach(body, frame, m, target, 1);
    } else {
      FrameLoopIterates(body, frame, next, target, guard - 1);
      var r := FrameLoop(body, frame, next, target, guard - 1);
      assert FrameLoop(body, frame, m, target, guard) == r;
      forall i | 0 <= i
        ensures Iterate(body, next, i) == Iterate(body, m, i + 1)
      {
        IterateShift(body, m, i);
      }
      if r.GuardExceeded? {
        forall i | 1 <= i < guard
          ensures frame(Iterate(body, m, i)) < target
        {
          if i > 1 {
            assert Iterate(body, next, i - 1) == Iterate(body, m, i);
          }
        }
      } else {
        var i: nat :| i < guard - 1 && FirstReach(body, frame, next, target, i) && r.m == Iterate(body, next, i);
        assert r.m == Iterate(body, m, i + 1);
        forall j | 1 <= j < i + 1
          ensures frame(Iterate(body, m, j)) < target
        {
          if j > 1 {
            assert Iterate(body, next, j - 1) == Iterate(body, m, j);
          }
        }
        assert FirstReach(body, frame, m, target, i + 1);
        assert !(frame(Iterate(body, m, i + 1)) < target);
      }
    }
  }

  /**
   * The guard throws on its last turn even when that turn completes the
   * frame: the frame count is then not updated.
   */
  lemma GuardIgnoresLastTurn<M>(body: M -> M, frame: M -> nat, m: M, target: nat, guard: nat)
    requires guard > 0
    requires forall i :: 1 <= i < guard ==> frame(Iterate(body, m, i)) < target
    requires frame(Iterate(body, m, guard)) >= target
    ensures FrameLoop(body, frame, m, target, guard) == GuardExceeded(Iterate(body, m, guard))
  {
    FrameLoopIterates(body, frame, m, target, guard);
  }

  /**
   * The part of a kernel that frames change: the machine, `frameCount`,
   * `lastFrameBuffer` and `lastFrameChecksum`, and how the last call ended.
   */
  datatype Frames<M> = Frames(m: M, frameCount: int, frameBuffer: Option<seq<int>>, checksum: Option<int>, outcome: Outcome)

  /**
   * `runFrame` on a loaded machine: the loop until the PPU's frame counter
   * passes its value at the start. A completed frame sets the frame count to
   * the PPU's frame, copies the frame buffer and takes its checksum; a guard
   * that runs out throws and leaves them as they were.
   */
  function AfterFrame<M>(lp: Loop<M>, f: Frames<M>): (r: Frames<M>)
    requires lp.guard > 0
  {
    match FrameLoop(lp.body, lp.frame, f.m, lp.frame(f.m) + 1, lp.guard)
    case GuardExceeded(m) => f.(m := m, outcome := Fail(Error(lp.message)))
    case Finished(m) =>
      var copy := Uint32Copy(lp.pixels(m));
      Frames(m, lp.frame(m), Some(copy), Some(Checksum.Checksum(copy)), Done)
  }

  /** A frame loop that ran out of guard ends `runFrame` with the machine it reached and the counters as they were. */
  lemma AfterFrameGuard<M>(lp: Loop<M>, f: Frames<M>, m: M)
    requires lp.guard > 0 && FrameLoop(lp.body, lp.frame, f.m, lp.frame(f.m) + 1, lp.guard) == GuardExceeded(m)
    ensures AfterFrame(lp, f) == Frames(m, f.frameCount, f.frameBuffer, f.checksum, Fail(Error(lp.message)))
  {
  }

  /** A frame loop that completed the frame ends `runFrame` with the counters of the machine it reached. */
  lemma AfterFrameFinished<M>(lp: Loop<M>, f: Frames<M>, m: M)
    requires lp.guard > 0 && FrameLoop(lp.body, lp.frame, f.m, lp.frame(f.m) + 1, lp.guard) == Finished(m)
    ensures AfterFrame(lp, f) == Frames(m, lp.frame(m), Some(Uint32Copy(lp.pixels(m))), Some(Checksum.Checksum(Uint32Copy(lp.pixels(m)))), Done)
  {
  }

  /** A completed frame leaves the PPU on a later frame, which is the new frame count, with the checksum of the copied buffer. */
  lemma AfterFrameAdvances<M>(lp: Loop<M>, f: Frames<M>)
    requires lp.guard > 0
    ensures var r := AfterFrame(lp, f);
      && (r.outcome.Done? ==> && lp.frame(r.m) > lp.frame(f.m) && r.frameCount == lp.frame(r.m)
                              && r.frameBuffer == Some(Uint32Copy(lp.pixels(r.m)))
                              && r.checksum == Some(Checksum.Checksum(r.frameBuffer.value)))
      && (r.outcome.Fail? ==> && r.outcome == Fail(Error(lp.message)) && r.frameCount == f.frameCount
                              && r.frameBuffer == f.frameBuffer && r.checksum == f.checksum)
  {
    FrameLoopIterates(lp.body, lp.frame, f.m, lp.frame(f.m) + 1, lp.guard);
  }

  /** `n` calls of `runFrame`; the first one that throws ends the run. */
  function FramesRun<M>(lp: Loop<M>, f: Frames<M>, n: nat): Frames<M>
    requires lp.guard > 0
    decreases n
  {
    if n == 0 || f.outcome.Fail? then f else FramesRun(lp, AfterFrame(lp, f), n - 1)
  }

  /** Running `a` frames and then `b` is running `a + b`. */
  lemma {:induction false} FramesRunCompose<M>(lp: Loop<M>, f: Frames<M>, a: nat, b: nat)
    requires lp.guard > 0
    ensures FramesRun(lp, FramesRun(lp, f, a), b) == FramesRun(lp, f, a + b)
    decreases a
  {
    if a > 0 && f.outcome.Done? {
      FramesRunCompose(lp, AfterFrame(lp, f), a - 1, b);
    }
  }

  /**
   * `n` frames that all complete move the PPU on by at least `n` frames and
   * leave the frame count at the PPU's frame, with the checksum of the last
   * frame's copied buffer.
   */
  lemma {:induction false} FramesRunAdvances<M>(lp: Loop<M>, f: Frames<M>, n: nat)
    requires lp.guard > 0 && f.outcome.Done? && n > 0
    ensures var r := FramesRun(lp, f, n);
      r.outcome.Done? ==>
        && lp.frame(r.m) >= lp.frame(f.m) + n && r.frameCount == lp.frame(r.m)
        && r.frameBuffer == Some(Uint32Copy(lp.pixels(r.m)))
        && r.checksum == Some(Checksum.Checksum(r.frameBuffer.value))
    decreases n
  {
    var g := AfterFrame(lp, f);
    AfterFrameAdvances(lp, f);
    if n > 1 && g.outcome.Done? {
      FramesRunAdvances(lp, g, n - 1);
    } else if g.outcome.Fail? {
      assert FramesRun(lp, f, n) == g;
    }
  }

  /**
   * Frames are determined by the machine alone: two frame states on the same
   * machine run `n > 0` frames to the same machine and the same outcome, and
   * when those frames complete, to the same frame count, buffer and checksum.
   */
  lemma {:induction false} ReplayAgrees<M>(lp: Loop<M>, f: Frames<M>, g: Frames<M>, n: nat)
    requires lp.guard > 0 && f.m == g.m && f.outcome.Done? && g.outcome.Done? && n > 0
    ensures FramesRun(lp, f, n).m == FramesRun(lp, g, n).m
    ensures FramesRun(lp, f, n).outcome == FramesRun(lp, g, n).outcome
    ensures FramesRun(lp, f, n).outcome.Done? ==>
      && FramesRun(lp, f, n).frameCount == FramesRun(lp, g, n).frameCount
      && FramesRun(lp, f, n).checksum == FramesRun(lp, g, n).checksum
      && FramesRun(lp, f, n).frameBuffer == FramesRun(lp, g, n).frameBuffer
    decreases n
  {
    var f1 := AfterFrame(lp, f);
    var g1 := AfterFrame(lp, g);
    if f1.outcome.Done? {
      assert f1 == g1;
    } else if n > 1 {
      assert FramesRun(lp, f1, n - 1) == f1;
      assert FramesRun(lp, g1, n - 1) == g1;
    }
  }

  /** The parts of a machine a snapshot holds, in the order `loadState` restores them. */
  datatype Part = CartridgePart | BusPart | CpuPart

  /**
   * A snapshot's parts loaded in order: the cartridge, then the bus, then the
   * CPU. A part whose load throws ends the load; the parts after it are not
   * loaded, and what that part had already changed stays changed.
   */
  function PartsLoaded<M, S>(load: (M, Part, S) -> (M, Outcome), m: M, cartridge: S, bus: S, cpu: S): (r: (M, Outcome))
    ensures load(m, CartridgePart, cartridge).1.Fail? ==> r == load(m, CartridgePart, cartridge)
    ensures load(m, CartridgePart, cartridge).1.Done? && load(load(m, CartridgePart, cartridge).0, BusPart, bus).1.Fail? ==>
      r == load(load(m, CartridgePart, cartridge).0, BusPart, bus)
  {
    var c := load(m, CartridgePart, cartridge);
    if c.1.Fail? then c
    else
      var b := load(c.0, BusPart, bus);
      if b.1.Fail? then b else load(b.0, CpuPart, cpu)
  }

  /** A machine whose three parts each load back from their own snapshots unchanged. */
  ghost predicate Restores<M, S>(save: (M, Part) -> S, load: (M, Part, S) -> (M, Outcome), m: M)
  {
    && load(m, CartridgePart, save(m, CartridgePart)) == (m, Done)
    && load(m, BusPart, save(m, BusPart)) == (m, Done)
    && load(m, CpuPart, save(m, CpuPart)) == (m, Done)
  }

  /** Loading a machine's own snapshot, part by part, gives the same machine back. */
  lemma PartsRoundTrip<M, S>(save: (M, Part) -> S, load: (M, Part, S) -> (M, Outcome), m: M)
    requires Restores(save, load, m)
    ensures PartsLoaded(load, m, save(m, CartridgePart), save(m, BusPart), save(m, CpuPart)) == (m, Done)
  {
  }
}
