/** `target.set(source)` on the `Uint8Array` and `Uint16Array` buffers that snapshots restore. */
module TypedArray {
  import opened Bits
  import opened Wrappers

  /** What `target.set(source)` leaves in a target holding `before`, when `source` fits. */
  function SetContents(before: seq<byte>, source: seq<int>): (after: seq<byte>)
    requires |source| <= |before|
    ensures |after| == |before|
    ensures forall i :: 0 <= i < |source| ==> after[i] == source[i] % 0x100
    ensures after[|source|..] == before[|source|..]
  {
    seq(|before|, i requires 0 <= i < |before| => if i < |source| then source[i] % 0x100 else before[i])
  }

  /**
   * `target.set(source)`: a RangeError when `source` is longer than the
   * target; otherwise each value is stored mod 256 from index 0 on and the
   * rest of the target is kept.
   */
  method Set(target: array<byte>, source: seq<int>) returns (outcome: Outcome)
    modifies target
    ensures |source| > target.Length ==>
      outcome == Fail(RangeError("offset is out of bounds")) && target[..] == old(target[..])
    ensures |source| <= target.Length ==> outcome == Done && target[..] == SetContents(old(target[..]), source)
  {
    if |source| > target.Length {
      return Fail(RangeError("offset is out of bounds"));
    }
    var i := 0;
    while i < |source|
      invariant 0 <= i <= |source|
      invariant forall k :: 0 <= k < i ==> target[k] == source[k] % 0x100
      invariant target[i..] == old(target[i..])
    {
      target[i] := source[i] % 0x100;
      i := i + 1;
    }
    assert target[..] == SetContents(old(target[..]), source);
    outcome := Done;
  }

  /** Setting an array's own contents back leaves it unchanged. */
  lemma SetOwnContents(contents: seq<byte>)
    ensures SetContents(contents, contents) == contents
  {
  }

  /** What `target.set(source)` leaves in a `Uint16Array` holding `before`, when `source` fits. */
  function SetContents16(before: seq<word>, source: seq<int>): (after: seq<word>)
    requires |source| <= |before|
    ensures |after| == |before|
    ensures forall i :: 0 <= i < |source| ==> after[i] == source[i] % 0x1_0000
    ensures after[|source|..] == before[|source|..]
  {
    seq(|before|, i requires 0 <= i < |before| => if i < |source| then source[i] % 0x1_0000 else before[i])
  }

  /** `target.set(source)` on a `Uint16Array`: values are stored mod 2^16. */
  method Set16(target: array<word>, source: seq<int>) returns (outcome: Outcome)
    modifies target
    ensures |source| > target.Length ==>
      outcome == Fail(RangeError("offset is out of bounds")) && target[..] == old(target[..])
    ensures |source| <= target.Length ==> outcome == Done && target[..] == SetContents16(old(target[..]), source)
  {
    if |source| > target.Length {
      return Fail(RangeError("offset is out of bounds"));
    }
    var i := 0;
    while i < |source|
      invariant 0 <= i <= |source|
      invariant forall k :: 0 <= k < i ==> target[k] == source[k] % 0x1_0000
      invariant target[i..] == old(target[i..])
    {
      target[i] := source[i] % 0x1_0000;
      i := i + 1;
    }
    assert target[..] == SetContents16(old(target[..]), source);
    outcome := Done;
  }

  lemma SetOwnContents16(contents: seq<word>)
    ensures SetContents16(contents, contents) == contents
  {
  }
}
