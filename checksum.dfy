/** `checksum32`: the 32-bit wrapping sum used as a frame fingerprint. */
module Checksum {
  const TWO_32: int := 0x1_0000_0000

  /** JavaScript `v >>> 0` on an integer: its value modulo 2^32. */
  function ToUint32(v: int): (r: int)
    ensures 0 <= r < TWO_32
  {
    v % TWO_32
  }

  /** The unwrapped total of every coerced value, in sequence order. */
  function Total(values: seq<int>): int
  {
    if |values| == 0 then 0 else Total(values[..|values| - 1]) + ToUint32(values[|values| - 1])
  }

  /** The checksum of a whole sequence: the total taken modulo 2^32. */
  function Checksum(values: seq<int>): int
  {
    Total(values) % TWO_32
  }

  method Checksum32(values: seq<int>) returns (sum: int)
    ensures sum == Checksum(values)
    ensures 0 <= sum < TWO_32
    ensures |values| == 0 ==> sum == 0
  {
    sum := 0;
    var i := 0;
    while i < |values|
      invariant 0 <= i <= |values|
      invariant sum == Total(values[..i]) % TWO_32
    {
      assert values[..i + 1][..i] == values[..i];
      sum := ToUint32(sum + ToUint32(values[i]));
      i := i + 1;
    }
    assert values[..i] == values;
  }

  /** Appending `v` gives the previous checksum plus `v >>> 0`, wrapped. */
  lemma ChecksumAppend(values: seq<int>, v: int)
    ensures Checksum(values + [v]) == (Checksum(values) + ToUint32(v)) % TWO_32
  {
    assert (values + [v])[..|values|] == values;
  }

  lemma {:induction false} TotalRemove(values: seq<int>, i: int)
    requires 0 <= i < |values|
    ensures Total(values) == Total(values[..i] + values[i + 1..]) + ToUint32(values[i])
    decreases |values|
  {
    var n := |values| - 1;
    if i == n {
      assert values[..i] + values[i + 1..] == values[..n];
    } else {
      var front := values[..n];
      TotalRemove(front, i);
      var rest := front[..i] + front[i + 1..];
      var last := rest + [values[n]];
      assert values[..i] + values[i + 1..] == last;
      assert last[..|last| - 1] == rest && last[|last| - 1] == values[n];
      assert Total(last) == Total(rest) + ToUint32(values[n]);
      assert Total(values) == Total(front) + ToUint32(values[n]);
    }
  }

  /** The total depends only on the multiset of values, not their order. */
  lemma {:induction false} TotalPermutation(a: seq<int>, b: seq<int>)
    requires multiset(a) == multiset(b)
    ensures Total(a) == Total(b)
    decreases |a|
  {
    if |a| > 0 {
      var n := |a| - 1;
      var x := a[n];
      assert x in multiset(b);
      var i :| 0 <= i < |b| && b[i] == x;
      var b' := b[..i] + b[i + 1..];
      assert b == b[..i] + [b[i]] + b[i + 1..];
      assert a == a[..n] + [x];
      calc {
        multiset(a[..n]) + multiset{x};
        multiset(a);
        multiset(b);
        multiset(b[..i]) + multiset{x} + multiset(b[i + 1..]);
        multiset(b') + multiset{x};
      }
      assert multiset(a[..n]) == multiset(a[..n]) + multiset{x} - multiset{x};
      assert multiset(b') == multiset(b') + multiset{x} - multiset{x};
      TotalPermutation(a[..n], b');
      TotalRemove(b, i);
    } else {
      assert |b| == |multiset(b)| == 0;
    }
  }

  /** A checksum does not depend on the order of the values. */
  lemma ChecksumPermutation(a: seq<int>, b: seq<int>)
    requires multiset(a) == multiset(b)
    ensures Checksum(a) == Checksum(b)
  {
    TotalPermutation(a, b);
  }
}
