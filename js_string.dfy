/** The JavaScript string operations the emulator applies to names and titles. */
module JsString {
  import opened Wrappers

  /** The characters `String.prototype.trim` removes: WhiteSpace and LineTerminator. */
  predicate IsTrimmable(c: char)
  {
    var n := c as int;
    || 0x0009 <= n <= 0x000D || n == 0x0020 || n == 0x00A0 || n == 0x1680
    || 0x2000 <= n <= 0x200A || n == 0x2028 || n == 0x2029 || n == 0x202F
    || n == 0x205F || n == 0x3000 || n == 0xFEFF
  }

  function TrimStart(s: string): string
  {
    if |s| > 0 && IsTrimmable(s[0]) then TrimStart(s[1..]) else s
  }

  function TrimEnd(s: string): string
  {
    if |s| > 0 && IsTrimmable(s[|s| - 1]) then TrimEnd(s[..|s| - 1]) else s
  }

  function Trim(s: string): string
  {
    TrimEnd(TrimStart(s))
  }

  /**
   * `toLowerCase` on the Latin capitals. Other characters are kept; no
   * other character lower-cases to 'n', 'e' or 's', the letters of the
   * system names, so comparisons with "nes" and "snes" are unaffected.
   */
  function ToLower(s: string): (r: string)
    ensures |r| == |s|
  {
    if |s| == 0 then ""
    else [if 'A' <= s[0] <= 'Z' then (s[0] as int + 32) as char else s[0]] + ToLower(s[1..])
  }

  /**
   * The upper-case text of one character, for every character whose
   * `toUpperCase` consists of ASCII letters only: the Latin small letters,
   * sharp s, dotless i, long s and the Latin ligatures U+FB00..U+FB06.
   * Every other character is kept; its JavaScript upper-case form is not
   * made of ASCII letters, so comparisons with ASCII names are unaffected.
   */
  function UpperOf(c: char): (r: string)
    ensures 'a' <= c <= 'z' ==> r == [(c as int - 32) as char]
    ensures 'A' <= c <= 'Z' ==> r == [c]
  {
    if 'a' <= c <= 'z' then [(c as int - 32) as char]
    else if c as int == 0x00DF then "SS"
    else if c as int == 0x0131 then "I"
    else if c as int == 0x017F then "S"
    else if c as int == 0xFB00 then "FF"
    else if c as int == 0xFB01 then "FI"
    else if c as int == 0xFB02 then "FL"
    else if c as int == 0xFB03 then "FFI"
    else if c as int == 0xFB04 then "FFL"
    else if c as int == 0xFB05 || c as int == 0xFB06 then "ST"
    else [c]
  }

  /** `toUpperCase`, character by character. */
  function ToUpper(s: string): string
  {
    if |s| == 0 then "" else UpperOf(s[0]) + ToUpper(s[1..])
  }

  predicate IsUpperAscii(s: string)
  {
    forall i :: 0 <= i < |s| ==> 'A' <= s[i] <= 'Z'
  }

  /** Upper-casing a text of capital letters keeps it. */
  lemma {:induction false} UpperKeepsCapitals(s: string)
    requires IsUpperAscii(s)
    ensures ToUpper(s) == s
    decreases |s|
  {
    if |s| > 0 {
      UpperKeepsCapitals(s[1..]);
      assert s == [s[0]] + s[1..];
    }
  }

  predicate AllTrimmable(s: string)
  {
    forall i :: 0 <= i < |s| ==> IsTrimmable(s[i])
  }

  lemma {:induction false} TrimStartSkips(pad: string, core: string)
    requires AllTrimmable(pad)
    requires |core| > 0 && !IsTrimmable(core[0])
    ensures TrimStart(pad + core) == core
    decreases |pad|
  {
    if |pad| > 0 {
      assert (pad + core)[1..] == pad[1..] + core;
      TrimStartSkips(pad[1..], core);
    } else {
      assert pad + core == core;
    }
  }

  lemma {:induction false} TrimEndSkips(core: string, pad: string)
    requires AllTrimmable(pad)
    requires |core| > 0 && !IsTrimmable(core[|core| - 1])
    ensures TrimEnd(core + pad) == core
    decreases |pad|
  {
    if |pad| > 0 {
      assert (core + pad)[..|core + pad| - 1] == core + pad[..|pad| - 1];
      TrimEndSkips(core, pad[..|pad| - 1]);
    } else {
      assert core + pad == core;
    }
  }

  /** Trimming removes exactly the surrounding white space of a text whose ends are not white space. */
  lemma TrimPadded(before: string, core: string, after: string)
    requires AllTrimmable(before) && AllTrimmable(after)
    requires |core| > 0 && !IsTrimmable(core[0]) && !IsTrimmable(core[|core| - 1])
    ensures Trim(before + core + after) == core
  {
    assert before + core + after == before + (core + after);
    TrimStartSkips(before, core + after);
    TrimEndSkips(core, after);
  }

  lemma {:induction false} LowerLast(s: string)
    requires |s| > 0
    ensures ToLower(s)[|s| - 1] == (if 'A' <= s[|s| - 1] <= 'Z' then (s[|s| - 1] as int + 32) as char else s[|s| - 1])
    decreases |s|
  {
    if |s| > 1 {
      LowerLast(s[1..]);
      assert s[1..][|s| - 2] == s[|s| - 1];
    }
  }

  /** `names.join(sep)`. */
  function Join(names: seq<string>, sep: string): string
  {
    if |names| == 0 then ""
    else if |names| == 1 then names[0]
    else names[0] + sep + Join(names[1..], sep)
  }

  /** The position of `name` in `names`, as a lookup table built from the list finds it. */
  function IndexOf(names: seq<string>, name: string): (r: Option<nat>)
    ensures r.Some? ==> r.value < |names| && names[r.value] == name
    ensures r.None? <==> name !in names
  {
    if |names| == 0 then None
    else if names[0] == name then Some(0)
    else match IndexOf(names[1..], name)
      case None => None
      case Some(i) => Some(i + 1)
  }

  /** The first occurrence is what `IndexOf` finds. */
  lemma {:induction false} IndexOfFirst(names: seq<string>, name: string, i: nat)
    requires i < |names| && names[i] == name
    requires forall k :: 0 <= k < i ==> names[k] != name
    ensures IndexOf(names, name) == Some(i)
    decreases i
  {
    if i > 0 {
      IndexOfFirst(names[1..], name, i - 1);
    }
  }

  /** The decimal text of a number, as a template literal writes it. */
  function NatToString(n: nat): (s: string)
    ensures |s| > 0
    ensures forall i :: 0 <= i < |s| ==> '0' <= s[i] <= '9'
    decreases n
  {
    var digit := [('0' as int + n % 10) as char];
    if n < 10 then digit else NatToString(n / 10) + digit
  }
  function HexDigit(d: nat): (c: char)
    requires d < 16
  {
    if d < 10 then ('0' as int + d) as char else ('a' as int + d - 10) as char
  }

  /** `n.toString(16)`: lower-case hexadecimal digits without leading zeros. */
  function HexString(n: nat): (s: string)
    ensures |s| > 0
    decreases n
  {
    if n < 16 then [HexDigit(n)] else HexString(n / 16) + [HexDigit(n % 16)]
  }

  /** The number a string of lower-case hexadecimal digits denotes. */
  function HexValue(s: string): nat
  {
    if |s| == 0 then 0
    else
      var c := s[|s| - 1];
      var d := if '0' <= c <= '9' then c as int - '0' as int else if 'a' <= c <= 'f' then c as int - 'a' as int + 10 else 0;
      16 * HexValue(s[..|s| - 1]) + d
  }

  /** The hexadecimal text reads back as the number it was made from. */
  lemma {:induction false} HexRoundTrip(n: nat)
    ensures HexValue(HexString(n)) == n
    decreases n
  {
    if n >= 16 {
      HexRoundTrip(n / 16);
      var s := HexString(n / 16) + [HexDigit(n % 16)];
      assert s[..|s| - 1] == HexString(n / 16);
    }
  }

  /** `s.padStart(width, fill)`. */
  function PadStart(s: string, width: nat, fill: char): (r: string)
    ensures |r| == if |s| >= width then |s| else width
    ensures r[|r| - |s|..] == s
    ensures forall i :: 0 <= i < |r| - |s| ==> r[i] == fill
  {
    if |s| >= width then s else seq(width - |s|, _ => fill) + s
  }
}
