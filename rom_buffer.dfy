/** `readAscii`: a zero-terminated field of single-byte characters. */
module RomBuffer {
  import opened Bits

  /** `bytes[i] ?? 0`: an index outside the array reads as 0. */
  function ByteAt(bytes: seq<byte>, i: int): byte
  {
    if 0 <= i < |bytes| then bytes[i] else 0
  }

  /** The characters of at most `length` bytes from `start`, cut at the first zero byte. */
  function AsciiField(bytes: seq<byte>, start: int, length: int): string
    decreases length
  {
    if length <= 0 || ByteAt(bytes, start) == 0 then ""
    else [ByteAt(bytes, start) as char] + AsciiField(bytes, start + 1, length - 1)
  }

  method ReadAscii(bytes: seq<byte>, start: int, length: int) returns (output: string)
    ensures output == AsciiField(bytes, start, length)
  {
    output := "";
    var index := 0;
    while index < length
      invariant 0 <= index
      invariant length > 0 ==> index <= length
      invariant output + AsciiField(bytes, start + index, length - index) == AsciiField(bytes, start, length)
      decreases length - index
    {
      var code := ByteAt(bytes, start + index);
      if code == 0 {
        break;
      }
      output := output + [code as char];
      index := index + 1;
    }
  }

  /**
   * A full characterisation of the field: no longer than `length`, every
   * character has the code of the byte it came from and no character is
   * NUL, and it ends either after `length` characters or at a zero byte
   * (bytes outside the array count as zero).
   */
  lemma {:induction false} AsciiFieldShape(bytes: seq<byte>, start: int, length: int)
    ensures var s := AsciiField(bytes, start, length);
      && |s| <= (if length < 0 then 0 else length)
      && (forall k :: 0 <= k < |s| ==> s[k] as int == ByteAt(bytes, start + k) != 0)
      && (length <= |s| || ByteAt(bytes, start + |s|) == 0)
    decreases length
  {
    if length > 0 && ByteAt(bytes, start) != 0 {
      AsciiFieldShape(bytes, start + 1, length - 1);
      var s := AsciiField(bytes, start, length);
      var t := AsciiField(bytes, start + 1, length - 1);
      assert s == [ByteAt(bytes, start) as char] + t;
      assert |s| == 1 + |t|;
      forall k | 0 <= k < |s|
        ensures s[k] as int == ByteAt(bytes, start + k) != 0
      {
        if k > 0 {
          assert s[k] == t[k - 1];
        }
      }
    }
  }

  /** A field that starts inside the array never runs past its end. */
  lemma AsciiFieldWithinArray(bytes: seq<byte>, start: int, length: int)
    requires 0 <= start
    ensures start + |AsciiField(bytes, start, length)| <= |bytes| || |AsciiField(bytes, start, length)| == 0
  {
    AsciiFieldShape(bytes, start, length);
    var s := AsciiField(bytes, start, length);
    if |s| > 0 {
      assert s[|s| - 1] as int == ByteAt(bytes, start + (|s| - 1)) != 0;
    }
  }
}
