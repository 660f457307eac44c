/**
 * web/app.mjs, lines 53-78: the bounded FIFO of audio samples between the
 * emulator and the sound card, a ring over a fixed array.
 */
module AudioQueue {
  const AUDIO_QUEUE_CAPACITY: nat := 262144

  /** The array slot `i` places after `read`, going round the ring once at most. */
  function Slot(read: nat, i: nat): (r: nat)
    requires read < AUDIO_QUEUE_CAPACITY && i <= AUDIO_QUEUE_CAPACITY
    ensures r < AUDIO_QUEUE_CAPACITY && r == (read + i) % AUDIO_QUEUE_CAPACITY
  {
    if read + i < AUDIO_QUEUE_CAPACITY then read + i else read + i - AUDIO_QUEUE_CAPACITY
  }

  /** `audioQueue`, `audioReadIndex`, `audioWriteIndex` and `audioSize`. */
  class AudioQueue {
    var queue: array<real>
    var readIndex: nat
    var writeIndex: nat
    var size: nat

    ghost predicate Valid()
      reads this
    {
      && queue.Length == AUDIO_QUEUE_CAPACITY
      && readIndex < AUDIO_QUEUE_CAPACITY
      && size <= AUDIO_QUEUE_CAPACITY
      && writeIndex == Slot(readIndex, size)
    }

    /** The queued samples, oldest first. */
    ghost function Contents(): (s: seq<real>)
      requires Valid()
      reads this, queue
      ensures |s| == size
    {
      seq(size, i requires 0 <= i < size && Valid() reads this, queue => queue[Slot(readIndex, i)])
    }

    constructor ()
      ensures Valid() && fresh(queue)
      ensures Contents() == []
    {
      queue := new real[AUDIO_QUEUE_CAPACITY](_ => 0.0);
      readIndex := 0;
      writeIndex := 0;
      size := 0;
    }

    /** `clearAudioQueue`: both indices and the size return to 0; the stored samples are left in place. */
    method Clear()
      requires Valid()
      modifies this
      ensures Valid() && queue == old(queue) && Contents() == []
      ensures readIndex == 0 && writeIndex == 0 && size == 0
    {
      writeIndex := 0;
      readIndex := 0;
      size := 0;
    }

    /** `pushAudioSample`: appends a sample, or drops it when the queue is full. */
    method Push(sample: real)
      requires Valid()
      modifies this, queue
      ensures Valid() && queue == old(queue)
      ensures old(size) >= AUDIO_QUEUE_CAPACITY ==>
        Contents() == old(Contents()) && readIndex == old(readIndex) && writeIndex == old(writeIndex)
      ensures old(size) < AUDIO_QUEUE_CAPACITY ==> Contents() == old(Contents()) + [sample]
      ensures readIndex == old(readIndex)
    {
      if size >= AUDIO_QUEUE_CAPACITY {
        return;
      }
      ghost var before := Contents();
      queue[writeIndex] := sample;
      writeIndex := (writeIndex + 1) % AUDIO_QUEUE_CAPACITY;
      size := size + 1;
      forall i | 0 <= i < size - 1
        ensures queue[Slot(readIndex, i)] == before[i]
      {
      }
      assert Contents() == before + [sample];
    }

    /** `pullAudioSample`: removes and returns the oldest sample, or returns 0 when the queue is empty. */
    method Pull() returns (sample: real)
      requires Valid()
      modifies this
      ensures Valid() && queue == old(queue)
      ensures old(size) == 0 ==> sample == 0.0 && Contents() == old(Contents()) && readIndex == old(readIndex)
      ensures old(size) > 0 ==> sample == old(Contents())[0] && Contents() == old(Contents())[1..]
      ensures writeIndex == old(writeIndex)
    {
      if size == 0 {
        return 0.0;
      }
      ghost var before := Contents();
      sample := queue[readIndex];
      readIndex := (readIndex + 1) % AUDIO_QUEUE_CAPACITY;
      size := size - 1;
      forall i | 0 <= i < size
        ensures queue[Slot(readIndex, i)] == before[i + 1]
      {
        assert Slot(readIndex, i) == Slot(old(readIndex), i + 1);
      }
      assert Contents() == before[1..];
    }
  }

  /** Samples come out in the order they went in: pushing two and pulling two returns them in turn. */
  method FifoOrder(q: AudioQueue, first: real, second: real) returns (a: real, b: real)
    requires q.Valid() && q.size == 0
    modifies q, q.queue
    ensures a == first && b == second
    ensures q.Valid() && q.Contents() == []
  {
    q.Push(first);
    q.Push(second);
    a := q.Pull();
    b := q.Pull();
  }
}
