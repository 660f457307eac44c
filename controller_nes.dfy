/** src/core/controller.js: the NES joypad, an 8-bit shift register loaded by the strobe. */
module NesController {
  import opened Wrappers
  import opened JsString
  import opened Bits

  const BUTTON_ORDER: seq<string> := ["A", "B", "SELECT", "START", "UP", "DOWN", "LEFT", "RIGHT"]

  /** `String(name).trim().toUpperCase()`. */
  function Normalize(name: string): string
  {
    ToUpper(Trim(name))
  }

  /** The bit of a button, as the frozen `BUTTON_BIT` table gives it. */
  function ButtonBit(name: string): (r: Option<nat>)
    ensures r.Some? ==> r.value < 8 && BUTTON_ORDER[r.value] == Normalize(name)
    ensures r.None? <==> Normalize(name) !in BUTTON_ORDER
  {
    IndexOf(BUTTON_ORDER, Normalize(name))
  }

  function UnsupportedButton(name: string): JsError
  {
    RangeError("Unsupported button \"" + name + "\". Use: " + Join(BUTTON_ORDER, ", "))
  }

  /**
   * `pressed ? state | (1 << bit) : state & ~(1 << bit)`; on an 8-bit state
   * the 32-bit complement acts as the 8-bit one.
   */
  function WithButton(state: byte, bit: nat, pressed: bool): byte
    requires bit < 8
  {
    Pow2Values();
    if pressed then Or(state, Pow2(bit), 8) else And(state, Not(Pow2(bit), 8), 8)
  }

  /** One shift: `(shift >> 1) | 0x80`. */
  function ShiftOut(shift: byte): byte
  {
    Pow2Values();
    Or(shift / 2, 0x80, 8)
  }

  /** The shift register after `n` reads. */
  function Shifted(shift: byte, n: nat): byte
  {
    if n == 0 then shift else ShiftOut(Shifted(shift, n - 1))
  }

  /** 1 for a set bit, 0 for a clear one. */
  function BitValue(x: nat, k: nat): int
  {
    if Bit(x, k) then 1 else 0
  }

  /** The value a read returns for a register whose bit 0 is `low`: `0x40 | low`. */
  function ReadValue(low: int): int
    requires 0 <= low <= 1
  {
    0x40 + low
  }

  datatype ControllerState = ControllerState(state: int, shift: int, strobe: int)

  class Controller {
    var state: byte
    var shift: byte
    var strobe: int

    ghost predicate Valid()
      reads this
    {
      0 <= strobe <= 1
    }

    constructor ()
      ensures Valid() && state == 0 && shift == 0 && strobe == 0
    {
      state := 0;
      shift := 0;
      strobe := 0;
    }

    /**
     * Presses or releases a button; an unknown name throws a RangeError
     * before anything changes. While the strobe is high the shift register
     * follows the new state.
     */
    method SetButton(name: string, pressed: bool) returns (outcome: Outcome)
      requires Valid()
      modifies this
      ensures Valid()
      ensures ButtonBit(name).None? ==>
        outcome == Fail(UnsupportedButton(name)) && state == old(state) && shift == old(shift) && strobe == old(strobe)
      ensures ButtonBit(name).Some? ==> outcome == Done
      ensures ButtonBit(name).Some? ==> state == WithButton(old(state), ButtonBit(name).value, pressed)
      ensures ButtonBit(name).Some? ==> strobe == old(strobe)
      ensures ButtonBit(name).Some? ==> shift == (if strobe == 1 then state else old(shift))
    {
      var bit := ButtonBit(name);
      if bit.None? {
        return Fail(UnsupportedButton(name));
      }
      state := WithButton(state, bit.value, pressed);
      if strobe == 1 {
        shift := state;
      }
      outcome := Done;
    }

    /** `write(value)`: the strobe is bit 0 of the value; a high strobe reloads the shift register. */
    method Write(value: int)
      modifies this
      ensures Valid()
      ensures strobe == value % 2 && state == old(state)
      ensures shift == (if strobe == 1 then state else old(shift))
    {
      strobe := value % 2;
      if strobe == 1 {
        shift := state;
      }
    }

    /** The value the next `read()` returns. */
    function Peek(): (r: int)
      reads this
      ensures r == ReadValue(BitValue(if strobe == 1 then state else shift, 0))
    {
      if strobe == 1 then 0x40 + state % 2 else 0x40 + shift % 2
    }

    /** `read()`: with the strobe high, the A bit without shifting; otherwise bit 0 of the shift register, which then shifts a 1 in at bit 7. */
    method Read() returns (value: int)
      requires Valid()
      modifies this
      ensures value == old(Peek())
      ensures Valid() && state == old(state) && strobe == old(strobe)
      ensures strobe == 1 ==> value == ReadValue(BitValue(state, 0)) && shift == old(shift)
      ensures strobe == 0 ==> value == ReadValue(BitValue(old(shift), 0)) && shift == ShiftOut(old(shift))
    {
      if strobe == 1 {
        return 0x40 + state % 2;
      }
      value := 0x40 + shift % 2;
      shift := ShiftOut(shift);
    }

    method SaveState() returns (saved: ControllerState)
      ensures saved == ControllerState(state, shift, strobe)
    {
      saved := ControllerState(state, shift, strobe);
    }

    /** `loadState`: state and shift keep their low 8 bits, the strobe its low bit. */
    method LoadState(saved: ControllerState)
      modifies this
      ensures Valid()
      ensures state == saved.state % 0x100 && shift == saved.shift % 0x100 && strobe == saved.strobe % 2
    {
      state := saved.state % 0x100;
      shift := saved.shift % 0x100;
      strobe := saved.strobe % 2;
    }
  }

  /** Setting a button changes that bit to `pressed` and no other. */
  lemma WithButtonBits(state: byte, bit: nat, pressed: bool, j: nat)
    requires bit < 8 && j < 8
    ensures Bit(WithButton(state, bit, pressed), j) == (if j == bit then pressed else Bit(state, j))
  {
    Pow2Values();
    BitOfPow2(bit, j);
    if pressed {
      BitOfOr(state, Pow2(bit), 8, j);
    } else {
      BitOfNot(Pow2(bit), 8, j);
      BitOfAnd(state, Not(Pow2(bit), 8), 8, j);
    }
  }

  /** One shift moves every bit down by one and puts a 1 in bit 7. */
  lemma ShiftOutBits(shift: byte, j: nat)
    requires j < 8
    ensures Bit(ShiftOut(shift), j) == (if j == 7 then true else Bit(shift, j + 1))
  {
    Pow2Values();
    BitOfOr(shift / 2, 0x80, 8, j);
    assert Pow2(7) == 0x80;
    BitOfPow2(7, j);
    if j == 7 {
      assert Bit(shift, 8) == Bit(shift / 2, 7);
    }
  }

  /** After `n` reads, bit `j` holds the original bit `j + n`, or a shifted-in 1 once that is past bit 7. */
  lemma {:induction false} ShiftedBits(shift: byte, n: nat, j: nat)
    requires j < 8
    ensures Bit(Shifted(shift, n), j) == (if j + n < 8 then Bit(shift, j + n) else true)
    decreases n
  {
    if n > 0 {
      ShiftOutBits(Shifted(shift, n - 1), j);
      if j < 7 {
        ShiftedBits(shift, n - 1, j + 1);
      }
    }
  }

  /** Every value a read returns has bit 6 set and bits 1 to 5 and 7 clear. */
  lemma ReadValueBits(low: int, j: nat)
    requires 0 <= low <= 1 && 1 <= j < 8
    ensures Bit(ReadValue(low), j) == (j == 6)
  {
    if low == 0 {
      assert ReadValue(low) == Pow2(6);
    } else {
      assert ReadValue(low) / 2 == Pow2(5);
    }
    BitOfPow2(6, j);
    BitOfPow2(5, j - 1);
  }

  /** `n` reads with the strobe low: the shift register's bits in order, then 1s. */
  method ReadSerial(c: Controller, n: nat) returns (values: seq<int>)
    requires c.Valid() && c.strobe == 0
    modifies c
    ensures c.Valid() && c.state == old(c.state) && c.strobe == 0
    ensures c.shift == Shifted(old(c.shift), n)
    ensures |values| == n
    ensures forall k :: 0 <= k < n ==> values[k] == ReadValue(if k < 8 then BitValue(old(c.shift), k) else 1)
  {
    var start := c.shift;
    values := [];
    var i := 0;
    while i < n
      invariant 0 <= i <= n && |values| == i
      invariant c.Valid() && c.state == old(c.state) && c.strobe == 0
      invariant c.shift == Shifted(start, i)
      invariant forall k :: 0 <= k < i ==> values[k] == ReadValue(if k < 8 then BitValue(start, k) else 1)
    {
      ShiftedBits(start, i, 0);
      var v := c.Read();
      values := values + [v];
      i := i + 1;
    }
  }

  /**
   * The polling sequence a game runs: `write(1)`, `write(0)`, then `n` reads.
   * Read `k` reports button `BUTTON_ORDER[k]` in bit 0 for the first eight
   * reads, and 1 afterwards.
   */
  method Poll(c: Controller, n: nat) returns (values: seq<int>)
    requires c.Valid()
    modifies c
    ensures c.state == old(c.state) && c.strobe == 0
    ensures |values| == n
    ensures forall k :: 0 <= k < n ==> values[k] == ReadValue(if k < 8 then BitValue(old(c.state), k) else 1)
  {
    c.Write(1);
    c.Write(0);
    values := ReadSerial(c, n);
  }

  /** Pressing a button sets exactly its bit in the state that the next poll reports. */
  lemma PressedButtonIsReported(state: byte, name: string, j: nat)
    requires ButtonBit(name).Some? && j < 8
    ensures BitValue(WithButton(state, ButtonBit(name).value, true), j)
         == (if j == ButtonBit(name).value then 1 else BitValue(state, j))
  {
    WithButtonBits(state, ButtonBit(name).value, true, j);
  }

  /** Button names are matched after trimming and upper-casing: " start " selects bit 3. */
  lemma PaddedLowerCaseName()
    ensures ButtonBit(" start ") == Some(3)
  {
    NormalizedStart();
    assert |BUTTON_ORDER[0]| == 1 && |BUTTON_ORDER[1]| == 1 && |BUTTON_ORDER[2]| == 6 && BUTTON_ORDER[3] == "START";
    IndexOfFirst(BUTTON_ORDER, "START", 3);
  }

  lemma NormalizedStart()
    ensures Normalize(" start ") == "START"
  {
    TrimmedStart();
    UpperStart();
  }

  lemma TrimmedStart()
    ensures Trim(" start ") == "start"
  {
    TrimPadded(" ", "start", " ");
    assert " " + "start" + " " == " start ";
  }

  lemma UpperStart()
    ensures ToUpper("start") == "START"
  {
    assert ToUpper("t") == "T";
    assert ToUpper("rt") == "RT";
    assert ToUpper("art") == "ART";
    assert ToUpper("tart") == "TART";
  }

  /**
   * Any name made of capital letters that is not a button, with any white
   * space around it, is refused.
   */
  lemma UnknownNameRefused(before: string, core: string, after: string)
    requires AllTrimmable(before) && AllTrimmable(after)
    requires |core| > 0 && IsUpperAscii(core) && core !in BUTTON_ORDER
    ensures ButtonBit(before + core + after).None?
  {
    TrimPadded(before, core, after);
    UpperKeepsCapitals(core);
  }

  /** "TURBO" is not a button. */
  lemma TurboRefused()
    ensures ButtonBit("TURBO").None?
  {
    assert Trim("TURBO") == "TURBO" by {
      TrimPadded("", "TURBO", "");
      assert "" + "TURBO" + "" == "TURBO";
    }
    assert IsUpperAscii("TURBO");
    UpperKeepsCapitals("TURBO");
    forall k | 0 <= k < |BUTTON_ORDER|
      ensures BUTTON_ORDER[k] != "TURBO"
    {
      if |BUTTON_ORDER[k]| == 5 {
        assert k == 3 || k == 7;
        assert BUTTON_ORDER[k][0] != 'T';
      }
    }
  }

  /** A saved state loads back unchanged. */
  method SaveLoadRoundTrip(c: Controller)
    requires c.Valid()
    modifies c
    ensures c.state == old(c.state) && c.shift == old(c.shift) && c.strobe == old(c.strobe)
  {
    var saved := c.SaveState();
    c.LoadState(saved);
  }
}
