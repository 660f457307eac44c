/** src/core/snes/controller.mjs: the SNES joypad, 12 buttons read as a 16-bit serial stream. */
module SnesController {
  import opened Wrappers
  import opened JsString
  import opened Bits

  const SNES_BUTTON_ORDER: seq<string> := ["B", "Y", "SELECT", "START", "UP", "DOWN", "LEFT", "RIGHT", "A", "X", "L", "R"]
  const SERIAL_BIT_COUNT: nat := 16
  const BUTTON_BIT_COUNT: nat := 12

  /** The index of a button (its mask is `1 << index`), after `String(name).trim().toUpperCase()`. */
  function ButtonIndex(name: string): (r: Option<nat>)
    ensures r.Some? ==> r.value < BUTTON_BIT_COUNT && SNES_BUTTON_ORDER[r.value] == ToUpper(Trim(name))
    ensures r.None? <==> ToUpper(Trim(name)) !in SNES_BUTTON_ORDER
  {
    IndexOf(SNES_BUTTON_ORDER, ToUpper(Trim(name)))
  }

  function UnsupportedButton(name: string): JsError
  {
    RangeError("Unsupported button \"" + name + "\". Use: " + Join(SNES_BUTTON_ORDER, ", "))
  }

  /**
   * `mask |= 1 << index` or `mask &= ~(1 << index)`, then `mask &= 0x0fff`;
   * on a 12-bit mask the final masking keeps the value.
   */
  function WithButton(mask: nat, index: nat, pressed: bool): (r: nat)
    requires index < BUTTON_BIT_COUNT
    ensures r < 0x1000
  {
    Pow2Values();
    if pressed then Or(mask, Pow2(index), 12) else And(mask, Not(Pow2(index), 12), 12)
  }

  /** `#readSerialBitAt`: bit `index` of `mask` for a button index, 0 beyond the twelve buttons. */
  function SerialBitAt(mask: nat, index: nat): (r: int)
    ensures r == 0 || r == 1
  {
    if index >= BUTTON_BIT_COUNT then 0 else if Bit(mask, index) then 1 else 0
  }

  /** The word `toAutoJoypadWord` has built after its first `n` buttons. */
  function JoypadWordPrefix(serialMask: nat, n: nat): (r: nat)
    requires n <= BUTTON_BIT_COUNT
    ensures r < 0x10000
  {
    Pow2Values();
    if n == 0 then 0
    else
      var w := JoypadWordPrefix(serialMask, n - 1);
      if Bit(serialMask, n - 1) then Or(w, Pow2(15 - (n - 1)), 16) else w
  }

  /** The auto-joypad word of a serial mask, as `toAutoJoypadWord` returns it. */
  function AutoJoypadWord(serialMask: nat): (r: word)
  {
    JoypadWordPrefix(serialMask, BUTTON_BIT_COUNT) % 0x10000
  }

  /** After `n` buttons, bit `j` of the word is button `15 - j` for the top `n` bits and clear below. */
  lemma {:induction false} JoypadWordPrefixBits(serialMask: nat, n: nat, j: nat)
    requires n <= BUTTON_BIT_COUNT && j < 16
    ensures Bit(JoypadWordPrefix(serialMask, n), j) == (16 - n <= j && Bit(serialMask, 15 - j))
  {
    Pow2Values();
    if n == 0 {
      BitOfZero(j);
    } else {
      var w := JoypadWordPrefix(serialMask, n - 1);
      JoypadWordPrefixBits(serialMask, n - 1, j);
      if Bit(serialMask, n - 1) {
        BitOfOr(w, Pow2(15 - (n - 1)), 16, j);
        BitOfPow2(15 - (n - 1), j);
      }
    }
  }

  /** Button `i` of the serial mask is bit `15 - i` of the auto-joypad word, and bits 0 to 3 are clear. */
  lemma AutoJoypadWordBits(serialMask: nat, j: nat)
    requires j < 16
    ensures Bit(AutoJoypadWord(serialMask), j) == (4 <= j && Bit(serialMask, 15 - j))
  {
    JoypadWordPrefixBits(serialMask, BUTTON_BIT_COUNT, j);
  }

  /**
   * `toAutoJoypadWord`: button `i` of the serial mask goes to bit `15 - i`
   * of the word, and bits 0 to 3 stay clear.
   */
  method ToAutoJoypadWord(serialMask: nat) returns (word: nat)
    ensures word == AutoJoypadWord(serialMask)
    ensures forall j :: 0 <= j < 16 ==> Bit(word, j) == (4 <= j && Bit(serialMask, 15 - j))
  {
    Pow2Values();
    word := 0;
    var index := 0;
    while index < BUTTON_BIT_COUNT
      invariant 0 <= index <= BUTTON_BIT_COUNT
      invariant word == JoypadWordPrefix(serialMask, index)
    {
      if Bit(serialMask, index) {
        word := Or(word, Pow2(15 - index), 16);
      }
      index := index + 1;
    }
    word := word % 0x10000;
    forall j | 0 <= j < 16
      ensures Bit(word, j) == (4 <= j && Bit(serialMask, 15 - j))
    {
      AutoJoypadWordBits(serialMask, j);
    }
  }

  /** The four fields of a controller, as a value. */
  datatype Pad = Pad(current: nat, latched: nat, shift: nat, strobe: bool)

  /** `latch`: the live buttons are latched and the shift restarts. */
  function PadLatched(p: Pad): (r: Pad)
    ensures r.latched < 0x1000 && r.shift == 0 && r.current == p.current && r.strobe == p.strobe
  {
    p.(latched := p.current % 0x1000, shift := 0)
  }

  /** `setStrobe(enabled)`: raising the strobe, or lowering it from high, latches. */
  function Strobed(p: Pad, enabled: bool): (r: Pad)
    ensures r.strobe == enabled && r.current == p.current
  {
    (if enabled || p.strobe then PadLatched(p) else p).(strobe := enabled)
  }

  /** `readSerialBit`: the bit read and the controller after the read. */
  function SerialRead(p: Pad): (r: (int, Pad))
    ensures r.0 == 0 || r.0 == 1
    ensures r.1 == p || r.1 == p.(shift := p.shift + 1)
  {
    if p.strobe then (SerialBitAt(p.current, 0), p)
    else if p.shift < SERIAL_BIT_COUNT then (SerialBitAt(p.latched, p.shift), p.(shift := p.shift + 1))
    else (1, p)
  }

  datatype SnesControllerState = SnesControllerState(
    currentMask: int,
    latchedMask: Option<int>,
    shiftIndex: Option<int>,
    strobe: bool)

  class SNESController {
    var currentMask: nat
    var latchedMask: nat
    var shiftIndex: nat
    var strobe: bool

    ghost predicate Valid()
      reads this
    {
      currentMask < 0x1000 && latchedMask < 0x1000 && shiftIndex < 0x100
    }

    /** The controller as a value. */
    function State(): Pad
      reads this
    {
      Pad(currentMask, latchedMask, shiftIndex, strobe)
    }

    constructor ()
      ensures Valid()
      ensures currentMask == 0 && latchedMask == 0 && shiftIndex == 0 && !strobe
    {
      currentMask := 0;
      latchedMask := 0;
      shiftIndex := 0;
      strobe := false;
    }

    /** Presses or releases a button; an unknown name throws a RangeError and changes nothing. */
    method SetButton(name: string, pressed: bool) returns (outcome: Outcome)
      requires Valid()
      modifies this
      ensures Valid()
      ensures latchedMask == old(latchedMask) && shiftIndex == old(shiftIndex) && strobe == old(strobe)
      ensures ButtonIndex(name).None? ==> outcome == Fail(UnsupportedButton(name)) && currentMask == old(currentMask)
      ensures ButtonIndex(name).Some? ==>
        outcome == Done && currentMask == WithButton(old(currentMask), ButtonIndex(name).value, pressed)
    {
      var index := ButtonIndex(name);
      if index.None? {
        return Fail(UnsupportedButton(name));
      }
      currentMask := WithButton(currentMask, index.value, pressed);
      outcome := Done;
    }

    /** `getLatchedState`: the latched buttons as the auto-joypad word. */
    method GetLatchedState() returns (word: nat)
      requires Valid()
      ensures word == AutoJoypadWord(latchedMask)
      ensures forall j :: 0 <= j < 16 ==> Bit(word, j) == (4 <= j && Bit(latchedMask, 15 - j))
    {
      word := ToAutoJoypadWord(latchedMask % 0x1000);
    }

    method Latch()
      requires Valid()
      modifies this
      ensures Valid()
      ensures latchedMask == old(currentMask) && shiftIndex == 0
      ensures currentMask == old(currentMask) && strobe == old(strobe)
      ensures State() == PadLatched(old(State()))
    {
      latchedMask := currentMask % 0x1000;
      shiftIndex := 0;
    }

    /** Raising the strobe, or lowering it from high, latches the live buttons; low to low does not. */
    method SetStrobe(enabled: bool)
      requires Valid()
      modifies this
      ensures Valid() && strobe == enabled && currentMask == old(currentMask)
      ensures (enabled || old(strobe)) ==> latchedMask == currentMask && shiftIndex == 0
      ensures !(enabled || old(strobe)) ==> latchedMask == old(latchedMask) && shiftIndex == old(shiftIndex)
      ensures State() == Strobed(old(State()), enabled)
    {
      var next := enabled;
      if next {
        Latch();
      } else if strobe && !next {
        Latch();
      }
      strobe := next;
    }

    /**
     * `readSerialBit`: with the strobe high, the live B button and no shift;
     * otherwise the next of the sixteen latched bits, and 1 once all sixteen
     * have been read.
     */
    method ReadSerialBit() returns (bit: int)
      requires Valid()
      modifies this
      ensures Valid()
      ensures currentMask == old(currentMask) && latchedMask == old(latchedMask) && strobe == old(strobe)
      ensures strobe ==> bit == SerialBitAt(currentMask, 0) && shiftIndex == old(shiftIndex)
      ensures !strobe && old(shiftIndex) < SERIAL_BIT_COUNT ==>
        bit == SerialBitAt(latchedMask, old(shiftIndex)) && shiftIndex == old(shiftIndex) + 1
      ensures !strobe && old(shiftIndex) >= SERIAL_BIT_COUNT ==> bit == 1 && shiftIndex == old(shiftIndex)
      ensures (bit, State()) == SerialRead(old(State()))
    {
      if strobe {
        return SerialBitAt(currentMask, 0);
      }
      if shiftIndex < SERIAL_BIT_COUNT {
        bit := SerialBitAt(latchedMask, shiftIndex);
        shiftIndex := shiftIndex + 1;
        return bit;
      }
      bit := 1;
    }

    method SaveState() returns (saved: SnesControllerState)
      requires Valid()
      ensures saved == SnesControllerState(currentMask, Some(latchedMask), Some(shiftIndex), strobe)
    {
      saved := SnesControllerState(currentMask % 0x1000, Some(latchedMask % 0x1000), Some(shiftIndex % 0x100), strobe);
    }

    /** `loadState`: a missing latched mask falls back to the current one, a missing shift index to 0. */
    method LoadState(saved: SnesControllerState)
      modifies this
      ensures Valid()
      ensures currentMask == saved.currentMask % 0x1000
      ensures latchedMask == (if saved.latchedMask.Some? then saved.latchedMask.value else saved.currentMask) % 0x1000
      ensures shiftIndex == (if saved.shiftIndex.Some? then saved.shiftIndex.value else 0) % 0x100
      ensures strobe == saved.strobe
    {
      currentMask := saved.currentMask % 0x1000;
      var latched := if saved.latchedMask.Some? then saved.latchedMask.value else saved.currentMask;
      latchedMask := latched % 0x1000;
      var index := if saved.shiftIndex.Some? then saved.shiftIndex.value else 0;
      shiftIndex := index % 0x100;
      strobe := saved.strobe;
    }
  }

  /** Setting a button changes that bit to `pressed` and no other. */
  lemma WithButtonBits(mask: nat, index: nat, pressed: bool, j: nat)
    requires mask < 0x1000 && index < BUTTON_BIT_COUNT && j < BUTTON_BIT_COUNT
    ensures Bit(WithButton(mask, index, pressed), j) == (if j == index then pressed else Bit(mask, j))
  {
    Pow2Values();
    BitOfPow2(index, j);
    if pressed {
      BitOfOr(mask, Pow2(index), 12, j);
    } else {
      BitOfNot(Pow2(index), 12, j);
      BitOfAnd(mask, Not(Pow2(index), 12), 12, j);
    }
  }

  /** The bit the serial port reports for position `k` of a latched mask: the button bit, then 0, then 1. */
  function SerialStream(latched: nat, k: nat): int
  {
    if k < SERIAL_BIT_COUNT then SerialBitAt(latched, k) else 1
  }

  /** `n` reads with the strobe low: the latched bits from the current position on, then 1s. */
  method ReadSerial(c: SNESController, n: nat) returns (values: seq<int>)
    requires c.Valid() && !c.strobe
    modifies c
    ensures c.Valid() && !c.strobe && c.currentMask == old(c.currentMask) && c.latchedMask == old(c.latchedMask)
    ensures c.shiftIndex == (if old(c.shiftIndex) + n < SERIAL_BIT_COUNT then old(c.shiftIndex) + n
                             else if old(c.shiftIndex) < SERIAL_BIT_COUNT then SERIAL_BIT_COUNT else old(c.shiftIndex))
    ensures |values| == n
    ensures forall k :: 0 <= k < n ==> values[k] == SerialStream(c.latchedMask, old(c.shiftIndex) + k)
  {
    var start := c.shiftIndex;
    values := [];
    var i := 0;
    while i < n
      invariant 0 <= i <= n && |values| == i
      invariant c.Valid() && !c.strobe && c.currentMask == old(c.currentMask) && c.latchedMask == old(c.latchedMask)
      invariant c.shiftIndex == (if start + i < SERIAL_BIT_COUNT then start + i else if start < SERIAL_BIT_COUNT then SERIAL_BIT_COUNT else start)
      invariant forall k :: 0 <= k < i ==> values[k] == SerialStream(c.latchedMask, start + k)
    {
      var bit := c.ReadSerialBit();
      values := values + [bit];
      i := i + 1;
    }
  }

  /** After a latch, sixteen reads give the twelve buttons in order and four 0s; every later read gives 1. */
  method LatchAndRead(c: SNESController, n: nat) returns (values: seq<int>)
    requires c.Valid()
    modifies c
    ensures c.latchedMask == old(c.currentMask) && c.currentMask == old(c.currentMask) && !c.strobe
    ensures |values| == n
    ensures forall k :: 0 <= k < n && k < BUTTON_BIT_COUNT ==> values[k] == (if Bit(c.latchedMask, k) then 1 else 0)
    ensures forall k :: BUTTON_BIT_COUNT <= k < n && k < SERIAL_BIT_COUNT ==> values[k] == 0
    ensures forall k :: SERIAL_BIT_COUNT <= k < n ==> values[k] == 1
  {
    c.SetStrobe(true);
    c.SetStrobe(false);
    values := ReadSerial(c, n);
  }

  /** A name already trimmed and in capitals selects its position in the button list. */
  lemma CapitalName(name: string, index: nat)
    requires |name| > 0 && IsUpperAscii(name)
    requires index < BUTTON_BIT_COUNT && SNES_BUTTON_ORDER[index] == name
    requires forall k :: 0 <= k < index ==> SNES_BUTTON_ORDER[k] != name
    ensures ButtonIndex(name) == Some(index)
  {
    assert !IsTrimmable(name[0]) && !IsTrimmable(name[|name| - 1]);
    TrimPadded("", name, "");
    assert "" + name + "" == name;
    UpperKeepsCapitals(name);
    IndexOfFirst(SNES_BUTTON_ORDER, name, index);
  }

  lemma NameB()
    ensures ButtonIndex("B") == Some(0)
  {
    assert IsUpperAscii("B");
    CapitalName("B", 0);
  }

  lemma NameSelect()
    ensures ButtonIndex("SELECT") == Some(2)
  {
    assert IsUpperAscii("SELECT");
    CapitalName("SELECT", 2);
  }

  lemma NameStart()
    ensures ButtonIndex("START") == Some(3)
  {
    assert IsUpperAscii("START");
    CapitalName("START", 3);
  }

  lemma NameRight()
    ensures ButtonIndex("RIGHT") == Some(7)
  {
    assert IsUpperAscii("RIGHT");
    CapitalName("RIGHT", 7);
  }

  lemma NameA()
    ensures ButtonIndex("A") == Some(8)
  {
    assert IsUpperAscii("A");
    CapitalName("A", 8);
  }

  lemma NameX()
    ensures ButtonIndex("X") == Some(9)
  {
    assert IsUpperAscii("X");
    CapitalName("X", 9);
  }

  lemma NameR()
    ensures ButtonIndex("R") == Some(11)
  {
    assert IsUpperAscii("R");
    CapitalName("R", 11);
  }

  /** Presses one button on a controller, knowing its name is valid. */
  method Press(c: SNESController, name: string, index: nat)
    requires c.Valid() && ButtonIndex(name) == Some(index)
    modifies c
    ensures c.Valid() && c.strobe == old(c.strobe)
    ensures forall j :: 0 <= j < BUTTON_BIT_COUNT ==> Bit(c.currentMask, j) == (j == index || Bit(old(c.currentMask), j))
  {
    var before := c.currentMask;
    var outcome := c.SetButton(name, true);
    forall j | 0 <= j < BUTTON_BIT_COUNT
      ensures Bit(c.currentMask, j) == (j == index || Bit(before, j))
    {
      WithButtonBits(before, index, true, j);
    }
  }

  /** A fresh controller with B, START, A and R held. */
  method LatchedExampleController() returns (c: SNESController)
    ensures fresh(c) && c.Valid()
    ensures forall j :: 0 <= j < BUTTON_BIT_COUNT ==> Bit(c.currentMask, j) == (j == 0 || j == 3 || j == 8 || j == 11)
  {
    c := new SNESController();
    forall j | 0 <= j < BUTTON_BIT_COUNT
      ensures !Bit(c.currentMask, j)
    {
      BitOfZero(j);
    }
    NameB();
    Press(c, "B", 0);
    NameStart();
    Press(c, "START", 3);
    NameA();
    Press(c, "A", 8);
    NameR();
    Press(c, "R", 11);
  }

  /** B, START, A and R held and latched give the auto-joypad word with bits 15, 12, 7 and 4 set. */
  method LatchedWordExample() returns (word: nat)
    ensures forall j :: 0 <= j < 16 ==> Bit(word, j) == (j == 15 || j == 12 || j == 7 || j == 4)
  {
    var c := LatchedExampleController();
    c.Latch();
    word := c.GetLatchedState();
  }

  /** A fresh controller with B, SELECT, RIGHT, X and R held. */
  method SerialExampleController() returns (c: SNESController)
    ensures fresh(c) && c.Valid() && !c.strobe
    ensures forall j :: 0 <= j < BUTTON_BIT_COUNT ==> Bit(c.currentMask, j) == (j == 0 || j == 2 || j == 7 || j == 9 || j == 11)
  {
    c := new SNESController();
    forall j | 0 <= j < BUTTON_BIT_COUNT
      ensures !Bit(c.currentMask, j)
    {
      BitOfZero(j);
    }
    NameB();
    Press(c, "B", 0);
    NameSelect();
    Press(c, "SELECT", 2);
    NameRight();
    Press(c, "RIGHT", 7);
    NameX();
    Press(c, "X", 9);
    NameR();
    Press(c, "R", 11);
  }

  /**
   * B, SELECT, RIGHT, X and R held: with the strobe high a read gives the
   * B bit, and after lowering it sixteen reads give the buttons in order
   * followed by a 1.
   */
  method SerialExample() returns (live: int, values: seq<int>, after: int)
    ensures live == 1
    ensures values == [1, 0, 1, 0, 0, 0, 0, 1, 0, 1, 0, 1, 0, 0, 0, 0]
    ensures after == 1
  {
    var c := SerialExampleController();
    c.SetStrobe(true);
    live := c.ReadSerialBit();
    c.SetStrobe(false);
    values := ReadSerial(c, 16);
    ghost var mask := c.latchedMask;
    assert forall k :: 0 <= k < 16 ==> values[k] == SerialBitAt(mask, k);
    assert values == [SerialBitAt(mask, 0), SerialBitAt(mask, 1), SerialBitAt(mask, 2), SerialBitAt(mask, 3),
                      SerialBitAt(mask, 4), SerialBitAt(mask, 5), SerialBitAt(mask, 6), SerialBitAt(mask, 7),
                      SerialBitAt(mask, 8), SerialBitAt(mask, 9), SerialBitAt(mask, 10), SerialBitAt(mask, 11),
                      SerialBitAt(mask, 12), SerialBitAt(mask, 13), SerialBitAt(mask, 14), SerialBitAt(mask, 15)];
    after := c.ReadSerialBit();
  }

  /** A saved state loads back unchanged. */
  method SaveLoadRoundTrip(c: SNESController)
    requires c.Valid()
    modifies c
    ensures c.currentMask == old(c.currentMask) && c.latchedMask == old(c.latchedMask)
    ensures c.shiftIndex == old(c.shiftIndex) && c.strobe == old(c.strobe)
  {
    var saved := c.SaveState();
    c.LoadState(saved);
  }
}
