/**
 * src/core/snes/ppu.mjs: the SNES picture unit's register ports, memories,
 * master-cycle timing and the per-pixel helpers of its renderer.
 *
 * The scalar fields of `SNESPPU` live in one `PpuFields` record; the
 * register file, VRAM, CGRAM and OAM are arrays changed in place. The
 * whole-frame render and compose loops are not modelled: `_renderFrame` is
 * kept for its effect on the latched scanline state.
 */
module SnesPpu {
  import opened Bits
  import opened Wrappers
  import opened TypedArray

  const WIDTH: nat := 256
  const HEIGHT: nat := 224
  const PIXELS: nat := 256 * 224
  const LINE_CYCLES: nat := 1364
  const HBLANK_START_CYCLE: nat := 1096
  const LINES_PER_FRAME: nat := 262
  const VBLANK_START_LINE: nat := 225
  const FRAME_CYCLES: nat := 1364 * 262

  const REGISTER_COUNT: nat := 0x40
  const VRAM_SIZE: nat := 0x1_0000
  const CGRAM_SIZE: nat := 512
  const OAM_SIZE: nat := 544

  /** The `source` tags of the layer buffers. */
  const LAYER_BACKDROP: byte := 0
  const LAYER_BG1: byte := 1
  const LAYER_BG2: byte := 2
  const LAYER_BG3: byte := 3
  const LAYER_BG4: byte := 4
  const LAYER_OBJ: byte := 5

  type RemapMode = x: int | 0 <= x < 4
  type Addr15 = x: int | 0 <= x < 0x8000
  type Scroll = x: int | 0 <= x < 0x400
  type Channel = x: int | 0 <= x < 0x20
  /** A 15-bit BGR555 colour: red in bits 0-4, green in 5-9, blue in 10-14. */
  type Bgr555 = x: int | 0 <= x < 0x8000
  type OamWord = x: int | 0 <= x < 0x200
  /** `oamByteAddress`, which `loadState` sets with `%`, negative for a negative saved value. */
  type OamByte = x: int | -544 < x < 544

  /** JavaScript `a % n`: the remainder carries the sign of `a`. */
  function JsRemainder(a: int, n: int): (r: int)
    requires n > 0
    ensures -n < r < n
    ensures a >= 0 ==> r == a % n
    ensures a < 0 ==> r <= 0
  {
    if a >= 0 then a % n else -((-a) % n)
  }

  // ---------------------------------------------------------------------
  // VRAM address translation

  /** The span of the address bits mode 1, 2 or 3 rotates: the low 8, 9 or 10 bits. */
  function RemapSpan(mode: RemapMode): (p: nat)
    requires mode != 0
    ensures p == 0x100 || p == 0x200 || p == 0x400
  {
    if mode == 1 then 0x100 else if mode == 2 then 0x200 else 0x400
  }

  /**
   * `_remapVRAMAddress`: mode 0 keeps the word address; modes 1-3 rotate its
   * low 8, 9 or 10 bits left by three (`(w & high) | ((w & low) << 3) | ((w >>> s) & 7)`)
   * and keep the bits above.
   */
  function RemapVramAddress(address: int, mode: RemapMode): (r: Addr15)
    ensures mode == 0 ==> r == address % 0x8000
    ensures mode != 0 ==> r / RemapSpan(mode) == (address % 0x8000) / RemapSpan(mode)
    ensures mode != 0 ==>
      var p, w := RemapSpan(mode), address % 0x8000;
      r % p == (w % (p / 8)) * 8 + (w % p) / (p / 8)
  {
    var w := address % 0x8000;
    if mode == 0 then w
    else
      var p := RemapSpan(mode);
      var q := p / 8;
      var h, a, b := w / p, (w % p) / q, (w % p) % q;
      SplitAddress(w, p, q, h, a, b);
      LowRotation(p, q, a, b);
      SwapLowPart(p, h, a * q + b, b * 8 + a);
      h * p + (w % q) * 8 + (w / q) % 8
  }

  /** The pieces of a word address: `w == h * p + a * q + b` with `p == 8 * q`. */
  lemma SplitAddress(w: Addr15, p: nat, q: nat, h: int, a: int, b: int)
    requires p == 0x100 || p == 0x200 || p == 0x400
    requires q == p / 8 && h == w / p && a == (w % p) / q && b == (w % p) % q
    ensures 0 <= a < 8 && 0 <= b < q && w == h * p + a * q + b
    ensures w % q == b && (w / q) % 8 == a && w % p == a * q + b
  {
    if p == 0x100 {
      DivModOf(w % 0x100, 0x20, a, b);
      DivModOf(w, 0x100, h, a * 0x20 + b);
      DivModOf(w, 0x20, h * 8 + a, b);
      DivModOf(w / 0x20, 8, h, a);
    } else if p == 0x200 {
      DivModOf(w % 0x200, 0x40, a, b);
      DivModOf(w, 0x200, h, a * 0x40 + b);
      DivModOf(w, 0x40, h * 8 + a, b);
      DivModOf(w / 0x40, 8, h, a);
    } else {
      DivModOf(w % 0x400, 0x80, a, b);
      DivModOf(w, 0x400, h, a * 0x80 + b);
      DivModOf(w, 0x80, h * 8 + a, b);
      DivModOf(w / 0x80, 8, h, a);
    }
  }

  /** Replacing the low part of an address keeps its high part and the 15-bit bound. */
  lemma SwapLowPart(p: nat, h: int, low: int, low': int)
    requires p == 0x100 || p == 0x200 || p == 0x400
    requires 0 <= low < p && 0 <= low' < p && 0 <= h * p + low < 0x8000
    ensures 0 <= h * p + low' < 0x8000
    ensures (h * p + low') / p == h && (h * p + low') % p == low'
  {
    if p == 0x100 {
      DivModOf(h * 0x100 + low, 0x100, h, low);
      DivModOf(h * 0x100 + low', 0x100, h, low');
    } else if p == 0x200 {
      DivModOf(h * 0x200 + low, 0x200, h, low);
      DivModOf(h * 0x200 + low', 0x200, h, low');
    } else {
      DivModOf(h * 0x400 + low, 0x400, h, low);
      DivModOf(h * 0x400 + low', 0x400, h, low');
    }
  }

  /** The inverse rotation: the low bits rotated right by three. */
  function UnmapVramAddress(r: Addr15, mode: RemapMode): (w: Addr15)
  {
    if mode == 0 then r
    else
      var p := RemapSpan(mode);
      var q := p / 8;
      var h, b, a := r / p, (r % p) / 8, (r % p) % 8;
      DivModOf(r % p, 8, b, a);
      LowRotation(p, q, a, b);
      SwapLowPart(p, h, r % p, a * q + b);
      h * p + a * q + b
  }

  /** Both arrangements of the two low pieces stay below the span. */
  lemma LowRotation(p: nat, q: nat, a: int, b: int)
    requires p == 0x100 || p == 0x200 || p == 0x400
    requires q == p / 8 && 0 <= a < 8 && 0 <= b < q
    ensures 0 <= a * q + b < p && 0 <= b * 8 + a < p
  {
  }

  /** Every remap mode is a permutation of the 32K word addresses: rotating back recovers the address. */
  lemma {:induction false} RemapIsInvertible(w: Addr15, mode: RemapMode)
    ensures UnmapVramAddress(RemapVramAddress(w, mode), mode) == w
  {
    if mode != 0 {
      var p := RemapSpan(mode);
      var q := p / 8;
      var h, a, b := w / p, (w % p) / q, (w % p) % q;
      SplitAddress(w, p, q, h, a, b);
      var r := RemapVramAddress(w, mode);
      assert r % p == (w % q) * 8 + (w % p) / q;
      UnmapPieces(r, mode, h, a, b);
    }
  }

  /** A remapped address whose low part is `b * 8 + a` rotates back to `a * q + b`. */
  lemma UnmapPieces(r: Addr15, mode: RemapMode, h: int, a: int, b: int)
    requires mode != 0 && 0 <= a < 8 && 0 <= b < RemapSpan(mode) / 8
    requires r / RemapSpan(mode) == h && r % RemapSpan(mode) == b * 8 + a
    ensures UnmapVramAddress(r, mode) == h * RemapSpan(mode) + a * (RemapSpan(mode) / 8) + b
  {
    DivModOf(r % RemapSpan(mode), 8, b, a);
  }

  /** Two distinct word addresses never land on the same VRAM word. */
  lemma RemapIsInjective(w1: Addr15, w2: Addr15, mode: RemapMode)
    requires RemapVramAddress(w1, mode) == RemapVramAddress(w2, mode)
    ensures w1 == w2
  {
    RemapIsInvertible(w1, mode);
    RemapIsInvertible(w2, mode);
  }

  /** `_resolveVRAMByteOffset`: the byte of the remapped word that a low (0) or high (1) access reaches. */
  function VramByteOffset(address: int, mode: RemapMode, byteSelect: nat): (r: nat)
    requires byteSelect < 2
    ensures r < VRAM_SIZE
    ensures r % 2 == byteSelect && r / 2 == RemapVramAddress(address % 0x8000, mode)
  {
    var w := RemapVramAddress(address % 0x8000, mode);
    DivModOf(w * 2 + byteSelect, 2, w, byteSelect);
    (w * 2 + byteSelect) % 0x1_0000
  }

  /** The VMAIN step table `[1, 32, 128, 128][value & 3]`. */
  function VmainIncrement(value: byte): (r: nat)
    ensures value % 4 == 0 ==> r == 1
    ensures value % 4 == 1 ==> r == 32
    ensures value % 4 >= 2 ==> r == 128
  {
    [1, 32, 128, 128][value % 4]
  }

  // ---------------------------------------------------------------------
  // Colours

  function Red(c: int): Channel { c % 0x20 }
  function Green(c: int): Channel { (c / 0x20) % 0x20 }
  function Blue(c: int): Channel { (c / 0x400) % 0x20 }

  /** `r | (g << 5) | (b << 10)`: the three channels occupy disjoint bits. */
  function Pack(r: Channel, g: Channel, b: Channel): (c: Bgr555)
    ensures Red(c) == r && Green(c) == g && Blue(c) == b
  {
    var c := r + g * 0x20 + b * 0x400;
    DivModOf(c, 0x20, g + b * 0x20, r);
    DivModOf(c / 0x20, 0x20, b, g);
    DivModOf(c, 0x400, b, r + g * 0x20);
    DivModOf(c / 0x400, 0x20, 0, b);
    c
  }

  /** A 15-bit colour is its three channels packed again. */
  lemma PackOfChannels(c: Bgr555)
    ensures Pack(Red(c), Green(c), Blue(c)) == c
  {
    DivModOf(c, 0x20, c / 0x20, Red(c));
    DivModOf(c / 0x20, 0x20, (c / 0x20) / 0x20, Green(c));
    DivModOf(c, 0x400, c / 0x400, c % 0x400);
    assert (c / 0x20) / 0x20 == c / 0x400;
    DivModOf(c / 0x400, 0x20, 0, Blue(c));
  }

  /** One channel of `_blendBgr555`: add or subtract, halve by an arithmetic shift, clamp to 0..31. */
  function BlendChannel(base: Channel, addend: Channel, subtract: bool, half: bool): (r: Channel)
  {
    var sum := if subtract then base - addend else base + addend;
    var shifted := if half then sum / 2 else sum;
    if shifted < 0 then 0 else if shifted > 31 then 31 else shifted
  }

  /** `_blendBgr555`: each channel of the result is the blend of the two colours' channels, so it is at most 0x7FFF. */
  function BlendBgr555(baseColor: word, addendColor: word, subtract: bool, half: bool): (r: Bgr555)
    ensures Red(r) == BlendChannel(Red(baseColor), Red(addendColor), subtract, half)
    ensures Green(r) == BlendChannel(Green(baseColor), Green(addendColor), subtract, half)
    ensures Blue(r) == BlendChannel(Blue(baseColor), Blue(addendColor), subtract, half)
  {
    Pack(BlendChannel(Red(baseColor), Red(addendColor), subtract, half),
         BlendChannel(Green(baseColor), Green(addendColor), subtract, half),
         BlendChannel(Blue(baseColor), Blue(addendColor), subtract, half))
  }

  /** Adding black without halving keeps a colour's 15 bits. */
  lemma BlendAddBlack(c: word)
    ensures BlendBgr555(c, 0, false, false) == c % 0x8000
  {
    var low := c % 0x8000;
    DivModOf(c, 0x8000, c / 0x8000, low);
    DivModOf(c, 0x20, (c / 0x8000) * 0x400 + low / 0x20, low % 0x20);
    DivModOf(low, 0x20, low / 0x20, low % 0x20);
    assert c / 0x20 == (c / 0x8000) * 0x400 + low / 0x20;
    DivModOf(c / 0x20, 0x20, (c / 0x8000) * 0x20 + low / 0x400, (low / 0x20) % 0x20);
    DivModOf(low / 0x20, 0x20, low / 0x400, (low / 0x20) % 0x20);
    DivModOf(c, 0x400, (c / 0x8000) * 0x20 + low / 0x400, low % 0x400);
    DivModOf(low, 0x400, low / 0x400, low % 0x400);
    DivModOf(c / 0x400, 0x20, c / 0x8000, low / 0x400);
    assert Red(c) == Red(low) && Green(c) == Green(low) && Blue(c) == Blue(low);
    PackOfChannels(low);
  }

  /** Subtracting a colour from itself gives black, halved or not. */
  lemma BlendSubtractSelf(c: word, half: bool)
    ensures BlendBgr555(c, c, true, half) == 0
  {
  }

  /** Averaging a colour with itself gives the colour again. */
  lemma BlendHalfSelf(c: Bgr555)
    ensures BlendBgr555(c, c, false, true) == c
  {
    assert BlendChannel(Red(c), Red(c), false, true) == Red(c);
    assert BlendChannel(Green(c), Green(c), false, true) == Green(c);
    assert BlendChannel(Blue(c), Blue(c), false, true) == Blue(c);
    PackOfChannels(c);
  }

  /** Addition is symmetric in its two colours. */
  lemma BlendAddCommutes(a: word, b: word, half: bool)
    ensures BlendBgr555(a, b, false, half) == BlendBgr555(b, a, false, half)
  {
  }

  /**
   * `_readPaletteColorBgr`: entry `index & 0xff` of CGRAM, its low byte then
   * the high byte with bit 7 dropped, so the colour is at most 0x7FFF.
   */
  function PaletteColor(cgram: seq<byte>, index: int): (r: Bgr555)
    requires |cgram| == CGRAM_SIZE
    ensures r % 0x100 == cgram[(index % 0x100) * 2]
    ensures r / 0x100 == cgram[(index % 0x100) * 2 + 1] % 0x80
  {
    var entry := index % 0x100;
    var low, high := cgram[(entry * 2) % 0x200], cgram[(entry * 2 + 1) % 0x200];
    var r: int := low + ((high as int) % 0x80) * 0x100;
    DivModOf(r, 0x100, high % 0x80, low);
    r
  }

  // ---------------------------------------------------------------------
  // Latched scanline state and windows

  /** The record `latchScanlineState` stores per visible line. */
  datatype LineState = LineState(
    windowSel23: byte, windowSel24: byte, windowSel25: byte,
    windowLeft1: byte, windowRight1: byte, windowLeft2: byte, windowRight2: byte,
    windowLogicA: byte, windowLogicB: byte, windowMaskMain: byte, windowMaskSub: byte,
    tmMain: byte, tmSub: byte, bgMode: byte, cgwsel: byte, cgadsub: byte,
    fixedColorR: Channel, fixedColorG: Channel, fixedColorB: Channel,
    bg1Hofs: Scroll, bg1Vofs: Scroll, bg2Hofs: Scroll, bg2Vofs: Scroll, bg3Hofs: Scroll, bg3Vofs: Scroll)

  /** `lineState?.x ?? current`: a latched line wins, otherwise the live values are used. */
  function LineOr(line: Option<LineState>, live: LineState): LineState
  {
    if line.Some? then line.value else live
  }

  /** `_windowMatch`'s range test: inclusive, and wrapping round when left > right. */
  predicate InsideWindow(x: int, left: int, right: int)
  {
    if left <= right then left <= x <= right else x >= left || x <= right
  }

  /** Both edges of a window belong to it, wrapped or not. */
  lemma WindowEdgesInside(left: int, right: int)
    ensures InsideWindow(left, left, right) && InsideWindow(right, left, right)
  {
  }

  /** A wrapped window is everything except the gap strictly between right and left. */
  lemma WrappedWindowIsComplement(x: int, left: int, right: int)
    requires left > right
    ensures InsideWindow(x, left, right) <==> !(right < x < left)
  {
  }

  /**
   * `_windowMatch`: nothing (`null`) for a disabled window; otherwise whether
   * `x` is inside window 1 (registers 0x26/0x27) or window 2 (0x28/0x29), flipped by `invert`.
   */
  function WindowMatch(x: int, windowId: int, enabled: bool, invert: bool, ls: LineState): (r: Option<bool>)
    ensures r.None? <==> !enabled
    ensures r.Some? && windowId == 1 ==> r.value == (InsideWindow(x, ls.windowLeft1, ls.windowRight1) != invert)
    ensures r.Some? && windowId != 1 ==> r.value == (InsideWindow(x, ls.windowLeft2, ls.windowRight2) != invert)
  {
    if !enabled then None
    else
      var left := if windowId == 1 then ls.windowLeft1 else ls.windowLeft2;
      var right := if windowId == 1 then ls.windowRight1 else ls.windowRight2;
      var inside := InsideWindow(x, left, right);
      Some(if invert then !inside else inside)
  }

  /** The two-bit logic of a layer: WBGLOG (0x2a) for layers 0-3, WOBJLOG (0x2b) for OBJ (4) and colour (5). */
  function WindowLogic(layer: int, ls: LineState): (logic: nat)
    requires 0 <= layer <= 5
    ensures logic < 4
  {
    if layer <= 3 then (ls.windowLogicA / Pow2(layer * 2)) % 4
    else (ls.windowLogicB / Pow2((layer - 4) * 2)) % 4
  }

  /**
   * `_combineWindows`: with no window, no match; with one, that window's
   * answer; with both, OR, AND, XOR or XNOR by the layer's logic 0-3.
   */
  function CombineWindows(layer: int, window1: Option<bool>, window2: Option<bool>, ls: LineState): (r: bool)
    requires 0 <= layer <= 5
    ensures window1.None? && window2.None? ==> !r
    ensures window1.Some? && window2.None? ==> r == window1.value
    ensures window1.None? && window2.Some? ==> r == window2.value
    ensures window1.Some? && window2.Some? ==>
      var a, b, logic := window1.value, window2.value, WindowLogic(layer, ls);
      && (logic == 0 ==> r == (a || b))
      && (logic == 1 ==> r == (a && b))
      && (logic == 2 ==> r == (a != b))
      && (logic == 3 ==> r == (a == b))
  {
    if window1.None? && window2.None? then false
    else if window1.Some? && window2.None? then window1.value
    else if window1.None? && window2.Some? then window2.value
    else
      var logic := WindowLogic(layer, ls);
      if logic == 0 then window1.value || window2.value
      else if logic == 1 then window1.value && window2.value
      else if logic == 2 then window1.value != window2.value
      else window1.value == window2.value
  }

  /** Combining does not depend on which window is window 1. */
  lemma CombineWindowsCommutes(layer: int, w1: Option<bool>, w2: Option<bool>, ls: LineState)
    requires 0 <= layer <= 5
    ensures CombineWindows(layer, w1, w2, ls) == CombineWindows(layer, w2, w1, ls)
  {
  }

  /** Which windows a layer uses, and whether each is inverted. */
  datatype WindowSelection = WindowSelection(window1Enabled: bool, window1Invert: bool,
                                             window2Enabled: bool, window2Invert: bool)

  /**
   * `_readWindowSelection`: the nibble of W12SEL (0x23), W34SEL (0x24) or
   * WOBJSEL (0x25) for layer 0-5, low nibble for even layers, high for odd.
   */
  function ReadWindowSelection(layer: int, ls: LineState): (s: WindowSelection)
    ensures var source := if layer == 2 || layer == 3 then ls.windowSel24
                          else if layer == 4 || layer == 5 then ls.windowSel25
                          else ls.windowSel23;
            var nibble := if layer == 1 || layer == 3 || layer == 5 then source / 0x10 else source % 0x10;
            && s.window1Enabled == (nibble % 2 == 1) && s.window1Invert == ((nibble / 2) % 2 == 1)
            && s.window2Enabled == ((nibble / 4) % 2 == 1) && s.window2Invert == ((nibble / 8) % 2 == 1)
  {
    var source := if layer == 1 then ls.windowSel23
                  else if layer == 2 || layer == 3 then ls.windowSel24
                  else if layer == 4 || layer == 5 then ls.windowSel25
                  else ls.windowSel23;
    var nibble := if layer == 1 || layer == 3 || layer == 5 then source / 0x10 else source % 0x10;
    WindowSelection(nibble % 2 == 1, (nibble / 2) % 2 == 1, (nibble / 4) % 2 == 1, (nibble / 8) % 2 == 1)
  }

  /** `_isLayerWindowVisible`: a layer masked in TMW/TSW (0x2e/0x2f) is hidden where its windows combine to true. */
  function LayerWindowVisible(layer: int, x: int, ls: LineState, subscreen: bool): (visible: bool)
    requires 0 <= layer <= 5
    ensures (((if subscreen then ls.windowMaskSub else ls.windowMaskMain) / Pow2(layer)) % 2 == 0) ==> visible
  {
    var tmw := if subscreen then ls.windowMaskSub else ls.windowMaskMain;
    if (tmw / Pow2(layer)) % 2 == 0 then true
    else
      var selection := ReadWindowSelection(layer, ls);
      var win1 := WindowMatch(x, 1, selection.window1Enabled, selection.window1Invert, ls);
      var win2 := WindowMatch(x, 2, selection.window2Enabled, selection.window2Invert, ls);
      !CombineWindows(layer, win1, win2, ls)
  }

  /** A masked layer using window 1 alone, not inverted, is hidden exactly inside window 1. */
  lemma MaskedByWindowOne(layer: int, x: int, ls: LineState, subscreen: bool)
    requires 0 <= layer <= 5
    requires ((if subscreen then ls.windowMaskSub else ls.windowMaskMain) / Pow2(layer)) % 2 == 1
    requires var s := ReadWindowSelection(layer, ls); s.window1Enabled && !s.window1Invert && !s.window2Enabled
    ensures LayerWindowVisible(layer, x, ls, subscreen) <==> !InsideWindow(x, ls.windowLeft1, ls.windowRight1)
  {
  }

  /** `_isColorWindowMatch`: the colour window, from WOBJSEL bits 4-7 and the colour logic of WOBJLOG. */
  function ColorWindowMatch(x: int, ls: LineState): (r: bool)
  {
    var source := ls.windowSel25;
    var win1 := WindowMatch(x, 1, (source / 0x10) % 2 == 1, (source / 0x20) % 2 == 1, ls);
    var win2 := WindowMatch(x, 2, (source / 0x40) % 2 == 1, (source / 0x80) % 2 == 1, ls);
    CombineWindows(5, win1, win2, ls)
  }

  /** The colour window is the window pair that `_readWindowSelection` gives layer 5. */
  lemma ColorWindowIsLayerFive(x: int, ls: LineState)
    ensures var s := ReadWindowSelection(5, ls);
      ColorWindowMatch(x, ls) ==
        CombineWindows(5, WindowMatch(x, 1, s.window1Enabled, s.window1Invert, ls),
                          WindowMatch(x, 2, s.window2Enabled, s.window2Invert, ls), ls)
  {
    var source := ls.windowSel25;
    DivModOf(source / 0x10, 2, source / 0x20, (source / 0x10) % 2);
    DivModOf(source / 0x10, 4, source / 0x40, (source / 0x10) % 4);
    DivModOf(source / 0x10, 8, source / 0x80, (source / 0x10) % 8);
  }

  /** `_windowRegionMatches`: region mode 0 never, 1 outside the window, 2 inside, 3 always. */
  function WindowRegionMatches(mode: int, inWindow: bool): (r: bool)
    ensures mode == 0 ==> !r
    ensures mode == 1 ==> r == !inWindow
    ensures mode == 2 ==> r == inWindow
    ensures mode != 0 && mode != 1 && mode != 2 ==> r
  {
    if mode == 0 then false
    else if mode == 1 then !inWindow
    else if mode == 2 then inWindow
    else true
  }

  /** `_isColorMathEnabledForSource`: CGADSUB bit 0-4 for BG1-4 and OBJ (OBJ only when eligible), bit 5 for the backdrop. */
  function ColorMathEnabled(source: int, objMathEligible: bool, cgadsub: byte): (r: bool)
    ensures 1 <= source <= 4 ==> r == ((cgadsub / Pow2(source - 1)) % 2 == 1)
    ensures source == 5 ==> r == (objMathEligible && (cgadsub / 0x10) % 2 == 1)
    ensures !(1 <= source <= 5) ==> r == ((cgadsub / 0x20) % 2 == 1)
  {
    if source == 1 then cgadsub % 2 == 1
    else if source == 2 then (cgadsub / 2) % 2 == 1
    else if source == 3 then (cgadsub / 4) % 2 == 1
    else if source == 4 then (cgadsub / 8) % 2 == 1
    else if source == 5 then objMathEligible && (cgadsub / 0x10) % 2 == 1
    else (cgadsub / 0x20) % 2 == 1
  }

  /** `_readFixedColorBgr`: the fixed colour of a line as one BGR555 value. */
  function FixedColorBgr(ls: LineState): (r: Bgr555)
    ensures Red(r) == ls.fixedColorR && Green(r) == ls.fixedColorG && Blue(r) == ls.fixedColorB
  {
    Pack(ls.fixedColorR, ls.fixedColorG, ls.fixedColorB)
  }

  // ---------------------------------------------------------------------
  // Priorities, sprite sizes and tiles

  /** The priority levels `_readModePriorities` gives each layer; `obj` is indexed by the sprite's priority bits. */
  datatype Priorities = Priorities(bg1Low: int, bg1High: int, bg2Low: int, bg2High: int,
                                   bg3Low: int, bg3High: int, obj: seq<int>)

  /**
   * `_readModePriorities`: mode 1 (with or without the BG3 priority bit 3)
   * and every other mode. A tile's priority bit always lifts a layer, and the
   * four sprite levels are increasing.
   */
  function ModePriorities(modeRegister: byte): (p: Priorities)
    ensures p.bg1Low < p.bg1High && p.bg2Low < p.bg2High && p.bg3Low < p.bg3High
    ensures |p.obj| == 4 && p.obj[0] < p.obj[1] < p.obj[2] < p.obj[3]
    ensures modeRegister % 8 == 1 && (modeRegister / 8) % 2 == 1 ==>
      p.bg3High > p.bg1High && p.bg3High > p.bg2High && p.bg3High > p.obj[3]
    ensures modeRegister % 8 != 1 ==> p.obj[0] > p.bg1High
  {
    if modeRegister % 8 == 1 then
      if (modeRegister / 8) % 2 == 1 then Priorities(5, 8, 4, 7, 2, 10, [1, 3, 6, 9])
      else Priorities(5, 8, 4, 7, 0, 2, [1, 3, 6, 9])
    else Priorities(2, 5, 1, 4, 0, 3, [6, 7, 8, 9])
  }

  /** The small and large sprite dimensions OBSEL selects. */
  datatype ObjSize = ObjSize(smallWidth: nat, smallHeight: nat, largeWidth: nat, largeHeight: nat)

  predicate SpriteDimension(n: nat) { n == 8 || n == 16 || n == 32 || n == 64 }

  /** `_readOBJSizeConfig`: row `objsel >>> 5` of the size table; large sprites are never smaller than small ones. */
  function ObjSizeConfig(objsel: byte): (s: ObjSize)
    ensures SpriteDimension(s.smallWidth) && SpriteDimension(s.smallHeight)
    ensures SpriteDimension(s.largeWidth) && SpriteDimension(s.largeHeight)
    ensures s.smallWidth < s.largeWidth && s.smallHeight <= s.largeHeight
    ensures objsel / 0x20 <= 5 ==> s.smallWidth == s.smallHeight && s.largeWidth == s.largeHeight
  {
    var table := [ObjSize(8, 8, 16, 16), ObjSize(8, 8, 32, 32), ObjSize(8, 8, 64, 64), ObjSize(16, 16, 32, 32),
                  ObjSize(16, 16, 64, 64), ObjSize(32, 32, 64, 64), ObjSize(16, 32, 32, 64), ObjSize(16, 32, 32, 32)];
    table[objsel / 0x20]
  }

  /** Bit `7 - pixelX` of a VRAM byte: one bit plane of one pixel. */
  function PlaneBit(vram: seq<byte>, address: int, pixelX: int): (r: nat)
    requires |vram| == VRAM_SIZE && 0 <= pixelX < 8
    ensures r < 2
  {
    (vram[address % 0x1_0000] / Pow2(7 - pixelX)) % 2
  }

  /** The first byte of a tile row: `((base + tileIndex * size) & 0xffff) + pixelY * 2`. */
  function TileRow(base: int, tileIndex: int, tileSize: nat, pixelY: int): int
  {
    (base + tileIndex * tileSize) % 0x1_0000 + pixelY * 2
  }

  /**
   * `_readTilePixel4bpp`: a 32-byte tile whose planes 0/1 are interleaved
   * at row, row+1 and planes 2/3 at row+16, row+17. Colour 0 is transparent.
   */
  function TilePixel4bpp(vram: seq<byte>, base: int, tileIndex: int, pixelX: int, pixelY: int): (r: nat)
    requires |vram| == VRAM_SIZE && 0 <= pixelX < 8
    ensures r < 16
    ensures var row := TileRow(base, tileIndex, 32, pixelY);
      && r % 2 == PlaneBit(vram, row, pixelX) && (r / 2) % 2 == PlaneBit(vram, row + 1, pixelX)
      && (r / 4) % 2 == PlaneBit(vram, row + 16, pixelX) && r / 8 == PlaneBit(vram, row + 17, pixelX)
  {
    var row := TileRow(base, tileIndex, 32, pixelY);
    var b0, b1, b2, b3 := PlaneBit(vram, row, pixelX), PlaneBit(vram, row + 1, pixelX),
                          PlaneBit(vram, row + 16, pixelX), PlaneBit(vram, row + 17, pixelX);
    NibbleDigits(b0, b1, b2, b3);
    b0 + 2 * b1 + 4 * b2 + 8 * b3
  }

  /** Four bits put together low bit first are the binary digits of the result. */
  lemma NibbleDigits(b0: nat, b1: nat, b2: nat, b3: nat)
    requires b0 < 2 && b1 < 2 && b2 < 2 && b3 < 2
    ensures var r := b0 + 2 * b1 + 4 * b2 + 8 * b3;
      && r < 16 && r % 2 == b0 && (r / 2) % 2 == b1 && (r / 4) % 2 == b2 && r / 8 == b3
  {
    var r := b0 + 2 * b1 + 4 * b2 + 8 * b3;
    DivModOf(r, 2, b1 + 2 * b2 + 4 * b3, b0);
    DivModOf(b1 + 2 * b2 + 4 * b3, 2, b2 + 2 * b3, b1);
    DivModOf(r, 4, b2 + 2 * b3, b0 + 2 * b1);
    DivModOf(b2 + 2 * b3, 2, b3, b2);
    DivModOf(r, 8, b3, b0 + 2 * b1 + 4 * b2);
  }

  /** `_readTilePixel2bpp`: a 16-byte tile with planes 0/1 at row and row+1. */
  function TilePixel2bpp(vram: seq<byte>, base: int, tileIndex: int, pixelX: int, pixelY: int): (r: nat)
    requires |vram| == VRAM_SIZE && 0 <= pixelX < 8
    ensures r < 4
    ensures var row := TileRow(base, tileIndex, 16, pixelY);
      r % 2 == PlaneBit(vram, row, pixelX) && r / 2 == PlaneBit(vram, row + 1, pixelX)
  {
    var row := TileRow(base, tileIndex, 16, pixelY);
    PlaneBit(vram, row, pixelX) + 2 * PlaneBit(vram, row + 1, pixelX)
  }

  /** The low two planes of a 4bpp tile are the 2bpp tile at twice its index. */
  lemma LowPlanesAre2bpp(vram: seq<byte>, base: int, tileIndex: int, pixelX: int, pixelY: int)
    requires |vram| == VRAM_SIZE && 0 <= pixelX < 8
    ensures TilePixel4bpp(vram, base, tileIndex, pixelX, pixelY) % 4 == TilePixel2bpp(vram, base, tileIndex * 2, pixelX, pixelY)
  {
    assert tileIndex * 32 == (tileIndex * 2) * 16;
  }

  /** Where `_readTileMapEntry` reads: 32x32-entry screens of 0x800 bytes, laid out `widthTiles / 32` across. */
  function TileMapAddress(base: int, widthTiles: nat, tileX: nat, tileY: nat): (r: nat)
    requires widthTiles == 32 || widthTiles == 64
    ensures r < VRAM_SIZE
  {
    var screenWidth := widthTiles / 32;
    var screenIndex := (tileY / 32) * screenWidth + tileX / 32;
    var entryOffset := ((tileY % 32) * 32 + tileX % 32) * 2;
    (base + screenIndex * 0x800 + entryOffset) % 0x1_0000
  }

  /** Inside the first screen an entry is two bytes per tile, row after row of 32. */
  lemma FirstScreenLayout(base: int, widthTiles: nat, tileX: nat, tileY: nat)
    requires widthTiles == 32 || widthTiles == 64
    requires tileX < 32 && tileY < 32
    ensures TileMapAddress(base, widthTiles, tileX, tileY) == (base + (tileY * 32 + tileX) * 2) % 0x1_0000
  {
    DivModOf(tileX, 32, 0, tileX);
    DivModOf(tileY, 32, 0, tileY);
  }

  /** In a 64-wide map the right-hand screen begins 0x800 bytes after the left one. */
  lemma RightScreenLayout(base: int, tileX: nat, tileY: nat)
    requires 32 <= tileX < 64 && tileY < 32
    ensures TileMapAddress(base, 64, tileX, tileY) == (base + 0x800 + (tileY * 32 + tileX - 32) * 2) % 0x1_0000
  {
    DivModOf(tileX, 32, 1, tileX - 32);
    DivModOf(tileY, 32, 0, tileY);
  }

  /** `_readTileMapEntry`: the little-endian 16-bit entry at the tile-map address. */
  function TileMapEntry(vram: seq<byte>, base: int, widthTiles: nat, tileX: nat, tileY: nat): (r: word)
    requires |vram| == VRAM_SIZE && (widthTiles == 32 || widthTiles == 64)
    ensures var addr := TileMapAddress(base, widthTiles, tileX, tileY);
      r % 0x100 == vram[addr] && r / 0x100 == vram[(addr + 1) % 0x1_0000]
  {
    var addr := TileMapAddress(base, widthTiles, tileX, tileY);
    var r: int := vram[addr] + (vram[(addr + 1) % 0x1_0000] as int) * 0x100;
    DivModOf(r, 0x100, vram[(addr + 1) % 0x1_0000], vram[addr]);
    r
  }

  // ---------------------------------------------------------------------
  // Layer buffers

  /** One pixel of a screen target: colour, priority, source layer, and OBJ colour-math eligibility (1/0). */
  datatype Pixel = Pixel(color: word, priority: int, source: byte, objMathEligible: byte)

  /** A value stored into an `Int16Array`. */
  function Int16(x: int): (r: int)
    ensures -0x8000 <= r < 0x8000
    ensures -0x8000 <= x < 0x8000 ==> r == x
  {
    var r := (x + 0x8000) % 0x1_0000 - 0x8000;
    assert -0x8000 <= x < 0x8000 ==> r == x by {
      if -0x8000 <= x < 0x8000 {
        DivModOf(x + 0x8000, 0x1_0000, 0, x + 0x8000);
      }
    }
    r
  }

  /** `_writeLayerPixel` on one pixel: a strictly lower priority is rejected; an equal or higher one replaces the pixel. */
  function LayerPixel(p: Pixel, color: Bgr555, priority: int, source: byte, objMathEligible: bool): (r: Pixel)
  {
    if priority < p.priority then p
    else Pixel(color, Int16(priority), source, if objMathEligible then 1 else 0)
  }

  /**
   * Drawing two layers onto one pixel, in either order of arrival: the
   * higher priority wins, and of two equal priorities the later one.
   */
  lemma LayerPixelOrder(p: Pixel, c1: Bgr555, pr1: int, s1: byte, e1: bool, c2: Bgr555, pr2: int, s2: byte, e2: bool)
    requires -0x8000 <= pr1 < 0x8000 && -0x8000 <= pr2 < 0x8000 && p.priority <= pr1
    ensures pr2 < pr1 ==> LayerPixel(LayerPixel(p, c1, pr1, s1, e1), c2, pr2, s2, e2) == LayerPixel(p, c1, pr1, s1, e1)
    ensures pr2 >= pr1 ==> LayerPixel(LayerPixel(p, c1, pr1, s1, e1), c2, pr2, s2, e2) == Pixel(c2, pr2, s2, if e2 then 1 else 0)
  {
  }

  /** The stored priority of a pixel never decreases. */
  lemma LayerPixelPriorityGrows(p: Pixel, color: Bgr555, priority: int, source: byte, eligible: bool)
    requires -0x8000 <= priority < 0x8000
    ensures LayerPixel(p, color, priority, source, eligible).priority >= p.priority
    ensures LayerPixel(p, color, priority, source, eligible).priority == if priority < p.priority then p.priority else priority
  {
  }

  // ---------------------------------------------------------------------
  // Scalar state

  /** The eight BG scroll offsets `bg1Hofs` … `bg4Vofs`. */
  datatype Scrolls = Scrolls(bg1Hofs: Scroll, bg1Vofs: Scroll, bg2Hofs: Scroll, bg2Vofs: Scroll,
                             bg3Hofs: Scroll, bg3Vofs: Scroll, bg4Hofs: Scroll, bg4Vofs: Scroll)

  function ScrollOf(s: Scrolls, layer: int, horizontal: bool): Scroll
    requires 1 <= layer <= 4
  {
    if layer == 1 then (if horizontal then s.bg1Hofs else s.bg1Vofs)
    else if layer == 2 then (if horizontal then s.bg2Hofs else s.bg2Vofs)
    else if layer == 3 then (if horizontal then s.bg3Hofs else s.bg3Vofs)
    else if horizontal then s.bg4Hofs else s.bg4Vofs
  }

  /** `_setBGScroll`: one offset of one layer changes and the other seven stay. */
  function WithScroll(s: Scrolls, layer: int, horizontal: bool, value: Scroll): (r: Scrolls)
    requires 1 <= layer <= 4
    ensures ScrollOf(r, layer, horizontal) == value
    ensures forall l, h :: 1 <= l <= 4 && (l != layer || h != horizontal) ==> ScrollOf(r, l, h) == ScrollOf(s, l, h)
  {
    if layer == 1 then (if horizontal then s.(bg1Hofs := value) else s.(bg1Vofs := value))
    else if layer == 2 then (if horizontal then s.(bg2Hofs := value) else s.(bg2Vofs := value))
    else if layer == 3 then (if horizontal then s.(bg3Hofs := value) else s.(bg3Vofs := value))
    else if horizontal then s.(bg4Hofs := value) else s.(bg4Vofs := value)
  }

  /** The scalar fields of `SNESPPU`. */
  datatype PpuFields = PpuFields(
    frame: nat, scanline: nat, cycle: nat, masterCycleInFrame: nat,
    vblank: bool, nmiEnabled: bool, nmiPending: bool, nmiFlag: bool,
    vramAddress: word, vramIncrement: nat, vramIncrementOnLow: bool, vramAddressRemapMode: RemapMode,
    cgramAddress: byte, cgramHighLatch: bool, oamAddress: OamWord, oamByteAddress: OamByte,
    scrolls: Scrolls, bgofsLatch: byte, bghofsLatch: byte,
    fixedColorR: Channel, fixedColorG: Channel, fixedColorB: Channel)

  /** The values the constructor gives the fields. */
  function InitialFields(): PpuFields
  {
    PpuFields(0, 0, 0, 0, false, false, false, false, 0, 1, false, 0, 0, false, 0, 0,
              Scrolls(0, 0, 0, 0, 0, 0, 0, 0), 0, 0, 0, 0, 0)
  }

  // ---------------------------------------------------------------------
  // Timing

  /** The counters agree with the master cycle: inside the frame, `scanline` its line and `cycle` its dot. */
  predicate InFrame(f: PpuFields)
  {
    f.masterCycleInFrame < FRAME_CYCLES
    && f.scanline == f.masterCycleInFrame / LINE_CYCLES && f.cycle == f.masterCycleInFrame % LINE_CYCLES
  }

  /** `_enterVBlank`: vblank and the NMI flag are set, and an NMI is requested when enabled. */
  function VblankEntered(f: PpuFields): PpuFields
  {
    f.(vblank := true, nmiFlag := true, nmiPending := f.nmiPending || f.nmiEnabled)
  }

  /** A step of `step` master cycles goes from a line before 225 to line 225 or a later one. */
  predicate EntersVblank(f: PpuFields, step: nat)
  {
    f.masterCycleInFrame / LINE_CYCLES < VBLANK_START_LINE
    && ((f.masterCycleInFrame + step) % FRAME_CYCLES) / LINE_CYCLES >= VBLANK_START_LINE
  }

  /**
   * `clock`'s one pass over the `step = masterCycles >>> 0` cycles: the new
   * position is taken mod the frame; vblank starts on reaching line 225 and
   * ends, with `frame` counted once, on reaching the frame end.
   */
  function ClockedFields(f: PpuFields, step: nat): PpuFields
  {
    if step == 0 then f
    else
      var after := (f.masterCycleInFrame + step) % FRAME_CYCLES;
      var moved := f.(masterCycleInFrame := after, scanline := after / LINE_CYCLES, cycle := after % LINE_CYCLES);
      var entered := if EntersVblank(f, step) then VblankEntered(moved) else moved;
      if f.masterCycleInFrame + step >= FRAME_CYCLES then entered.(vblank := false, frame := entered.frame + 1)
      else entered
  }

  /** Every visible line forgets its latched state (`_clearScanlineState`). */
  function Cleared(lines: seq<Option<LineState>>): (r: seq<Option<LineState>>)
    ensures |r| == |lines| && forall y :: 0 <= y < |r| ==> r[y].None?
  {
    seq(|lines|, _ => None)
  }

  /** The latched lines after `clock`: rendering on entry to vblank clears them unless the screen is force-blanked. */
  function ClockedLines(f: PpuFields, step: nat, forcedBlank: bool, lines: seq<Option<LineState>>): seq<Option<LineState>>
  {
    if step > 0 && EntersVblank(f, step) && !forcedBlank then Cleared(lines) else lines
  }

  /** After any non-empty step the counters agree with the master cycle, which moved by `step` mod the frame. */
  lemma ClockKeepsPosition(f: PpuFields, step: nat)
    requires step > 0
    ensures InFrame(ClockedFields(f, step))
    ensures ClockedFields(f, step).masterCycleInFrame == (f.masterCycleInFrame + step) % FRAME_CYCLES
  {
  }

  /** `InFrame` is kept by every `clock`, the empty one included. */
  lemma ClockPreservesInFrame(f: PpuFields, step: nat)
    requires InFrame(f)
    ensures InFrame(ClockedFields(f, step))
  {
  }

  /** `frame` goes up by one exactly when the step reaches the frame end, even when it spans several frames. */
  lemma ClockCountsFrames(f: PpuFields, step: nat)
    ensures ClockedFields(f, step).frame == f.frame + (if step > 0 && f.masterCycleInFrame + step >= FRAME_CYCLES then 1 else 0)
    ensures step >= 2 * FRAME_CYCLES ==> ClockedFields(f, step).frame == f.frame + 1
  {
  }

  /** Reaching line 225 inside the frame sets vblank and the NMI flag, and requests an NMI only if enabled. */
  lemma ClockEntersVblank(f: PpuFields, step: nat)
    requires step > 0 && EntersVblank(f, step) && f.masterCycleInFrame + step < FRAME_CYCLES
    ensures var g := ClockedFields(f, step);
      g.vblank && g.nmiFlag && g.nmiPending == (f.nmiPending || f.nmiEnabled) && NmiStatus(g) == 0x80
  {
  }

  /** A step that neither reaches line 225 nor the frame end keeps vblank and the NMI latches. */
  lemma ClockInsideFrame(f: PpuFields, step: nat)
    requires !EntersVblank(f, step) && f.masterCycleInFrame + step < FRAME_CYCLES
    ensures var g := ClockedFields(f, step);
      g.vblank == f.vblank && g.nmiFlag == f.nmiFlag && g.nmiPending == f.nmiPending && g.frame == f.frame
  {
  }

  /** Reaching the frame end leaves vblank. */
  lemma ClockLeavesVblank(f: PpuFields, step: nat)
    requires step > 0 && f.masterCycleInFrame + step >= FRAME_CYCLES
    ensures !ClockedFields(f, step).vblank
  {
  }

  /** With the counters in step, entering vblank is leaving a line below 225 for line 225 or later. */
  lemma EntersVblankByScanline(f: PpuFields, step: nat)
    requires InFrame(f) && step > 0
    ensures EntersVblank(f, step) <==> f.scanline < VBLANK_START_LINE && ClockedFields(f, step).scanline >= VBLANK_START_LINE
  {
  }

  /** `readNMIStatus`: bit 7 is the NMI flag. */
  function NmiStatus(f: PpuFields): (r: byte)
    ensures r == 0x80 <==> f.nmiFlag
    ensures r == 0 <==> !f.nmiFlag
  {
    if f.nmiFlag then 0x80 else 0
  }

  /** `readHVBJOYStatus`: bit 7 in vblank, bit 6 from dot 1096 of the line on. */
  function HvbjoyStatus(f: PpuFields): (r: byte)
    ensures (r / 0x80 == 1) == f.vblank
    ensures ((r / 0x40) % 2 == 1) == (f.cycle >= HBLANK_START_CYCLE)
    ensures r % 0x40 == 0
  {
    (if f.vblank then 0x80 else 0) + (if f.cycle >= HBLANK_START_CYCLE then 0x40 else 0)
  }

  /** With the counters in step, the hblank bit reads the master cycle's position in its line. */
  lemma HblankFromMasterCycle(f: PpuFields)
    requires InFrame(f)
    ensures ((HvbjoyStatus(f) / 0x40) % 2 == 1) == (f.masterCycleInFrame % LINE_CYCLES >= HBLANK_START_CYCLE)
  {
  }

  // ---------------------------------------------------------------------
  // Register ports

  /** `_canAccessVRAMPort` / `_canAccessOAMPort`: in vblank or with forced blank (INIDISP bit 7). */
  predicate CanAccessPorts(vblank: bool, inidisp: byte)
  {
    vblank || inidisp >= 0x80
  }

  /** `_incrementVRAMAddress`: by the VMAIN step, wrapping at 0x7FFF. */
  function Incremented(f: PpuFields): (g: PpuFields)
    ensures g == f.(vramAddress := (f.vramAddress + f.vramIncrement) % 0x8000)
  {
    f.(vramAddress := (f.vramAddress + f.vramIncrement) % 0x8000)
  }

  /** The VRAM byte the current address reaches, low (0) or high (1). */
  function VramOffset(f: PpuFields, byteSelect: nat): (r: nat)
    requires byteSelect < 2
    ensures r < VRAM_SIZE
  {
    VramByteOffset(f.vramAddress, f.vramAddressRemapMode, byteSelect)
  }

  /** Whether the low (0x18/0x39) or high (0x19/0x3A) access is the one that advances the address. */
  predicate AdvancesOn(f: PpuFields, byteSelect: nat)
  {
    if byteSelect == 0 then f.vramIncrementOnLow else !f.vramIncrementOnLow
  }

  function AdvancedAfter(f: PpuFields, byteSelect: nat): PpuFields
  {
    if AdvancesOn(f, byteSelect) then Incremented(f) else f
  }

  /** `_updateVMain`. */
  function AfterVmain(f: PpuFields, value: byte): (g: PpuFields)
    ensures g.vramIncrement == VmainIncrement(value)
    ensures g.vramIncrementOnLow == (value < 0x80)
    ensures g.vramAddressRemapMode == (value / 4) % 4
    ensures g == f.(vramIncrement := g.vramIncrement, vramIncrementOnLow := g.vramIncrementOnLow,
                    vramAddressRemapMode := g.vramAddressRemapMode)
  {
    f.(vramIncrement := VmainIncrement(value), vramIncrementOnLow := value < 0x80, vramAddressRemapMode := (value / 4) % 4)
  }

  /** The CGRAM byte the port reaches: entry `cgramAddress`, low byte before high. */
  function CgramOffset(f: PpuFields): (r: nat)
    ensures r < CGRAM_SIZE
    ensures r == f.cgramAddress * 2 + (if f.cgramHighLatch then 1 else 0)
  {
    (f.cgramAddress * 2 + (if f.cgramHighLatch then 1 else 0)) % 0x200
  }

  /** After a CGRAM port access the latch flips, and the address advances mod 256 once the high byte is done. */
  function CgramAdvanced(f: PpuFields): (g: PpuFields)
    ensures g.cgramHighLatch == !f.cgramHighLatch
    ensures g.cgramAddress == if f.cgramHighLatch then (f.cgramAddress + 1) % 0x100 else f.cgramAddress
    ensures g == f.(cgramHighLatch := g.cgramHighLatch, cgramAddress := g.cgramAddress)
  {
    var latch := !f.cgramHighLatch;
    f.(cgramHighLatch := latch, cgramAddress := if !latch then (f.cgramAddress + 1) % 0x100 else f.cgramAddress)
  }

  /** `_writeBGScroll`: H takes bits 0-2 from BGHOFS latch and 3-7 from the common latch; V takes the common latch. */
  function AfterScrollWrite(f: PpuFields, layer: int, horizontal: bool, b: byte): PpuFields
    requires 1 <= layer <= 4
  {
    if horizontal then
      var value := (b % 4) * 0x100 + (f.bgofsLatch / 8) * 8 + f.bghofsLatch % 8;
      f.(scrolls := WithScroll(f.scrolls, layer, true, value), bgofsLatch := b, bghofsLatch := b)
    else
      var value := (b % 4) * 0x100 + f.bgofsLatch;
      f.(scrolls := WithScroll(f.scrolls, layer, false, value), bgofsLatch := b)
  }

  /** `_writeFixedColor`: bits 7, 6 and 5 pick blue, green and red to take the low five bits. */
  function AfterFixedColor(f: PpuFields, value: byte): (g: PpuFields)
    ensures g.fixedColorB == if value >= 0x80 then value % 0x20 else f.fixedColorB
    ensures g.fixedColorG == if (value / 0x40) % 2 == 1 then value % 0x20 else f.fixedColorG
    ensures g.fixedColorR == if (value / 0x20) % 2 == 1 then value % 0x20 else f.fixedColorR
    ensures g == f.(fixedColorR := g.fixedColorR, fixedColorG := g.fixedColorG, fixedColorB := g.fixedColorB)
  {
    var color := value % 0x20;
    f.(fixedColorB := if value >= 0x80 then color else f.fixedColorB,
       fixedColorG := if (value / 0x40) % 2 == 1 then color else f.fixedColorG,
       fixedColorR := if (value / 0x20) % 2 == 1 then color else f.fixedColorR)
  }

  /** `(oamByteAddress >>> 1) & 0x1ff`, with `>>>` reading a negative value as unsigned. */
  function OamWordOf(byteAddress: int): (r: OamWord)
    ensures 0 <= byteAddress < 0x1_0000_0000 ==> r == (byteAddress / 2) % 0x200
    ensures -0x1_0000_0000 <= byteAddress < 0 ==> r == ((byteAddress + 0x1_0000_0000) / 2) % 0x200
  {
    ((byteAddress % 0x1_0000_0000) / 2) % 0x200
  }

  /** The OAM data port after a write: byte address +1 (JavaScript `%` 544), word address from it. */
  function AfterOamData(f: PpuFields): PpuFields
  {
    var next := JsRemainder(f.oamByteAddress + 1, OAM_SIZE);
    f.(oamByteAddress := next, oamAddress := OamWordOf(next))
  }

  /** The OAM word address with a new low byte (0x02) or bit 8 (0x03), and the byte address `(word << 1) % 544`. */
  function AfterOamAddress(f: PpuFields, word: OamWord): (g: PpuFields)
    ensures 0 <= g.oamByteAddress < OAM_SIZE
  {
    f.(oamAddress := word, oamByteAddress := (word * 2) % OAM_SIZE)
  }

  /** The register whose write changes a BG scroll: 0x0D-0x14, layer 1-4, horizontal on odd. */
  predicate ScrollRegister(mapped: int) { 0x0d <= mapped <= 0x14 }

  function ScrollLayer(mapped: int): (layer: int)
    requires ScrollRegister(mapped)
    ensures 1 <= layer <= 4
  {
    (mapped - 0x0d) / 2 + 1
  }

  /**
   * The fields after `writePPURegister(mapped, b)`; `canAccess` says whether
   * the VRAM and OAM data ports are open.
   */
  function WrittenFields(f: PpuFields, mapped: int, b: byte, canAccess: bool): PpuFields
  {
    if mapped == 0x02 then AfterOamAddress(f, (f.oamAddress / 0x100) * 0x100 + b)
    else if mapped == 0x03 then AfterOamAddress(f, (b % 2) * 0x100 + f.oamAddress % 0x100)
    else if mapped == 0x04 then (if canAccess then AfterOamData(f) else f)
    else if mapped == 0x15 then AfterVmain(f, b)
    else if mapped == 0x16 then f.(vramAddress := (f.vramAddress / 0x100) * 0x100 + b)
    else if mapped == 0x17 then f.(vramAddress := f.vramAddress % 0x100 + b * 0x100)
    else if mapped == 0x18 then AdvancedAfter(f, 0)
    else if mapped == 0x19 then AdvancedAfter(f, 1)
    else if mapped == 0x21 then f.(cgramAddress := b, cgramHighLatch := false)
    else if mapped == 0x22 then CgramAdvanced(f)
    else if mapped == 0x32 then AfterFixedColor(f, b)
    else if ScrollRegister(mapped) then AfterScrollWrite(f, ScrollLayer(mapped), (mapped - 0x0d) % 2 == 0, b)
    else f
  }

  /** The fields after `readPPURegister(mapped)`: the VRAM data ports may advance the address, the CGRAM port its latch. */
  function ReadFields(f: PpuFields, mapped: int): PpuFields
  {
    if mapped == 0x39 then AdvancedAfter(f, 0)
    else if mapped == 0x3a then AdvancedAfter(f, 1)
    else if mapped == 0x3b then CgramAdvanced(f)
    else f
  }

  /** VRAM after a write: the data ports store a byte at the resolved offset when open. */
  function VramAfterWrite(vram: seq<byte>, f: PpuFields, mapped: int, b: byte, canAccess: bool): seq<byte>
    requires |vram| == VRAM_SIZE
  {
    if (mapped == 0x18 || mapped == 0x19) && canAccess then vram[VramOffset(f, mapped - 0x18) := b] else vram
  }

  /** CGRAM after a write: the data port 0x22 stores at the latched offset. */
  function CgramAfterWrite(cgram: seq<byte>, f: PpuFields, mapped: int, b: byte): seq<byte>
    requires |cgram| == CGRAM_SIZE
  {
    if mapped == 0x22 then cgram[CgramOffset(f) := b] else cgram
  }

  /** OAM after a write: the data port 0x04 stores at the byte address when open; a negative address drops the byte. */
  function OamAfterWrite(oam: seq<byte>, f: PpuFields, mapped: int, b: byte, canAccess: bool): seq<byte>
    requires |oam| == OAM_SIZE
  {
    if mapped == 0x04 && canAccess && f.oamByteAddress >= 0 then oam[f.oamByteAddress := b] else oam
  }

  /** VMAIN decides the step and which access advances; the step table is 1, 32, 128, 128. */
  lemma VmainSelects(f: PpuFields, value: byte, canAccess: bool)
    ensures var g := WrittenFields(f, 0x15, value, canAccess);
      && g.vramIncrement == [1, 32, 128, 128][value % 4]
      && AdvancesOn(g, 0) == (value < 0x80) && AdvancesOn(g, 1) == (value >= 0x80)
  {
  }

  /**
   * With VMAIN bit 7 set (advance after the high byte), a word written low
   * then high (0x18 then 0x19) lands on the two bytes of one remapped word
   * when the ports are open, and is dropped when they are closed; either way
   * the address advances once, by the VMAIN step.
   */
  lemma VramWordWrite(vram: seq<byte>, f: PpuFields, low: byte, high: byte, canAccess: bool)
    requires |vram| == VRAM_SIZE && !f.vramIncrementOnLow
    ensures var f1 := WrittenFields(f, 0x18, low, canAccess);
      var f2 := WrittenFields(f1, 0x19, high, canAccess);
      var v2 := VramAfterWrite(VramAfterWrite(vram, f, 0x18, low, canAccess), f1, 0x19, high, canAccess);
      var w := RemapVramAddress(f.vramAddress % 0x8000, f.vramAddressRemapMode);
      && f2 == Incremented(f)
      && (canAccess ==> v2 == vram[2 * w := low][2 * w + 1 := high])
      && (!canAccess ==> v2 == vram)
  {
  }

  /** With VMAIN bit 7 clear the low-byte access advances instead, so the high byte goes to the next word. */
  lemma VramLowAdvances(f: PpuFields, low: byte, canAccess: bool)
    requires f.vramIncrementOnLow
    ensures WrittenFields(f, 0x18, low, canAccess) == Incremented(f)
    ensures WrittenFields(f, 0x19, low, canAccess) == f
  {
  }

  /**
   * Two CGRAM port writes from a reset latch fill the low then the high byte
   * of entry `cgramAddress`, then the address moves to the next entry mod
   * 256; the palette then reads the two bytes back as one colour.
   */
  lemma CgramWordWrite(cgram: seq<byte>, f: PpuFields, low: byte, high: byte, canAccess: bool)
    requires |cgram| == CGRAM_SIZE && !f.cgramHighLatch
    ensures var f1 := WrittenFields(f, 0x22, low, canAccess);
      var c2 := CgramAfterWrite(CgramAfterWrite(cgram, f, 0x22, low), f1, 0x22, high);
      var f2 := WrittenFields(f1, 0x22, high, canAccess);
      && c2 == cgram[2 * f.cgramAddress := low][2 * f.cgramAddress + 1 := high]
      && f2 == f.(cgramAddress := (f.cgramAddress + 1) % 0x100)
      && PaletteColor(c2, f.cgramAddress) == low + (high % 0x80) * 0x100
  {
    var f1 := WrittenFields(f, 0x22, low, canAccess);
    assert f1 == f.(cgramHighLatch := true);
    var c1 := CgramAfterWrite(cgram, f, 0x22, low);
    assert c1 == cgram[2 * f.cgramAddress := low];
    var c2 := CgramAfterWrite(c1, f1, 0x22, high);
    assert c2 == c1[2 * f.cgramAddress + 1 := high];
    var color := PaletteColor(c2, f.cgramAddress);
    DivModOf(color, 0x100, color / 0x100, color % 0x100);
  }

  /** Two CGRAM port reads from a reset latch return the low then the high byte of one entry and advance to the next. */
  lemma CgramWordRead(f: PpuFields)
    requires !f.cgramHighLatch
    ensures CgramOffset(f) == 2 * f.cgramAddress && CgramOffset(ReadFields(f, 0x3b)) == 2 * f.cgramAddress + 1
    ensures ReadFields(ReadFields(f, 0x3b), 0x3b) == f.(cgramAddress := (f.cgramAddress + 1) % 0x100)
  {
  }

  /** Writing CGADD (0x21) selects an entry and resets the latch to the low byte. */
  lemma CgramAddressResetsLatch(f: PpuFields, b: byte, canAccess: bool)
    ensures var g := WrittenFields(f, 0x21, b, canAccess); g.cgramAddress == b && !g.cgramHighLatch
  {
  }

  /** A BG scroll register written twice, low byte then high byte, holds `(high << 8 | low) & 0x3FF`. */
  lemma ScrollWrittenTwice(f: PpuFields, mapped: int, low: byte, high: byte, canAccess: bool)
    requires ScrollRegister(mapped)
    ensures var g := WrittenFields(WrittenFields(f, mapped, low, canAccess), mapped, high, canAccess);
      ScrollOf(g.scrolls, ScrollLayer(mapped), (mapped - 0x0d) % 2 == 0) == (high * 0x100 + low) % 0x400
  {
    DivModOf(low, 8, low / 8, low % 8);
    DivModOf(high * 0x100 + low, 0x400, high / 4, (high % 4) * 0x100 + low);
  }

  /** A scroll write changes only its own layer's offset. */
  lemma ScrollWriteKeepsOthers(f: PpuFields, mapped: int, b: byte, canAccess: bool, layer: int, horizontal: bool)
    requires ScrollRegister(mapped) && 1 <= layer <= 4
    requires layer != ScrollLayer(mapped) || horizontal != ((mapped - 0x0d) % 2 == 0)
    ensures ScrollOf(WrittenFields(f, mapped, b, canAccess).scrolls, layer, horizontal) == ScrollOf(f.scrolls, layer, horizontal)
  {
  }

  /** OAMADDL (0x02) then OAMADDH (0x03) select word `(high & 1) << 8 | low` and its byte address mod 544. */
  lemma OamAddressPair(f: PpuFields, low: byte, high: byte, canAccess: bool)
    ensures var g := WrittenFields(WrittenFields(f, 0x02, low, canAccess), 0x03, high, canAccess);
      g.oamAddress == (high % 2) * 0x100 + low && g.oamByteAddress == (g.oamAddress * 2) % OAM_SIZE
  {
    var w := (f.oamAddress / 0x100) * 0x100 + low;
    DivModOf(w, 0x100, f.oamAddress / 0x100, low);
  }

  /** An open OAM data write advances the byte address by one mod 544, and the word address follows it. */
  lemma OamDataAdvances(f: PpuFields, b: byte)
    requires f.oamByteAddress >= 0
    ensures var g := WrittenFields(f, 0x04, b, true);
      g.oamByteAddress == (f.oamByteAddress + 1) % OAM_SIZE && g.oamAddress == g.oamByteAddress / 2
  {
  }

  /** A closed OAM data port changes neither OAM nor the addresses. */
  lemma OamDataDroppedWhenClosed(oam: seq<byte>, f: PpuFields, b: byte)
    requires |oam| == OAM_SIZE
    ensures WrittenFields(f, 0x04, b, false) == f && OamAfterWrite(oam, f, 0x04, b, false) == oam
  {
  }

  /** COLDATA with bits 5-7 all set gives all three channels the low five bits; with none set it changes nothing. */
  lemma FixedColorChannels(f: PpuFields, c: Channel, canAccess: bool)
    ensures var g := WrittenFields(f, 0x32, 0xe0 + c, canAccess);
      g.fixedColorR == c && g.fixedColorG == c && g.fixedColorB == c
    ensures WrittenFields(f, 0x32, c, canAccess) == f
  {
    DivModOf(0xe0 + c, 0x20, 7, c);
    DivModOf(0xe0 + c, 0x40, 3, 0x20 + c);
    DivModOf(c, 0x20, 0, c);
    DivModOf(c, 0x40, 0, c);
  }

  // ---------------------------------------------------------------------
  // Latched lines and snapshots

  /** `scanlineState[y] = state`: a JavaScript array grows with holes when `y` is past its end. */
  function StoredLine(lines: seq<Option<LineState>>, y: nat, state: LineState): (r: seq<Option<LineState>>)
    ensures |r| == if y < |lines| then |lines| else y + 1
    ensures r[y] == Some(state)
    ensures forall i :: 0 <= i < |r| && i != y ==> r[i] == if i < |lines| then lines[i] else None
  {
    if y < |lines| then lines[y := Some(state)]
    else lines + seq(y - |lines|, _ => None) + [Some(state)]
  }

  /** The object `saveState` returns and `loadState` reads; `oam` and `scanlineState` may be missing. */
  datatype PpuSnapshot = PpuSnapshot(
    registers: seq<int>, vram: seq<int>, cgram: seq<int>, oam: Option<seq<int>>,
    frame: int, scanline: int, cycle: int, masterCycleInFrame: int,
    vblank: bool, nmiEnabled: bool, nmiPending: bool, nmiFlag: bool,
    vramAddress: int, vramIncrement: int, vramIncrementOnLow: bool, vramAddressRemapMode: int,
    cgramAddress: int, cgramHighLatch: bool, oamAddress: int, oamByteAddress: int,
    bg1Hofs: int, bg1Vofs: int, bg2Hofs: int, bg2Vofs: int, bg3Hofs: int, bg3Vofs: int, bg4Hofs: int, bg4Vofs: int,
    bgofsLatch: int, bghofsLatch: int, fixedColorR: int, fixedColorG: int, fixedColorB: int,
    scanlineState: Option<seq<Option<LineState>>>)

  /** `saveState`: every field and memory as it is. */
  function Snapshot(f: PpuFields, registers: seq<byte>, vram: seq<byte>, cgram: seq<byte>, oam: seq<byte>,
                    lines: seq<Option<LineState>>): PpuSnapshot
  {
    var s := f.scrolls;
    PpuSnapshot(registers, vram, cgram, Some(oam), f.frame, f.scanline, f.cycle, f.masterCycleInFrame,
                f.vblank, f.nmiEnabled, f.nmiPending, f.nmiFlag,
                f.vramAddress, f.vramIncrement, f.vramIncrementOnLow, f.vramAddressRemapMode,
                f.cgramAddress, f.cgramHighLatch, f.oamAddress, f.oamByteAddress,
                s.bg1Hofs, s.bg1Vofs, s.bg2Hofs, s.bg2Vofs, s.bg3Hofs, s.bg3Vofs, s.bg4Hofs, s.bg4Vofs,
                f.bgofsLatch, f.bghofsLatch, f.fixedColorR, f.fixedColorG, f.fixedColorB, Some(lines))
  }

  /**
   * The fields `loadState` restores: counters through `>>> 0`, addresses
   * and channels masked, `oamByteAddress` by JavaScript `%` 544.
   */
  function LoadedFields(s: PpuSnapshot): PpuFields
  {
    PpuFields(s.frame % 0x1_0000_0000, s.scanline % 0x1_0000_0000, s.cycle % 0x1_0000_0000,
              s.masterCycleInFrame % 0x1_0000_0000, s.vblank, s.nmiEnabled, s.nmiPending, s.nmiFlag,
              s.vramAddress % 0x1_0000, s.vramIncrement % 0x1_0000_0000, s.vramIncrementOnLow, s.vramAddressRemapMode % 4,
              s.cgramAddress % 0x100, s.cgramHighLatch, s.oamAddress % 0x200, JsRemainder(s.oamByteAddress, OAM_SIZE),
              Scrolls(s.bg1Hofs % 0x400, s.bg1Vofs % 0x400, s.bg2Hofs % 0x400, s.bg2Vofs % 0x400,
                      s.bg3Hofs % 0x400, s.bg3Vofs % 0x400, s.bg4Hofs % 0x400, s.bg4Vofs % 0x400),
              s.bgofsLatch % 0x100, s.bghofsLatch % 0x100, s.fixedColorR % 0x20, s.fixedColorG % 0x20, s.fixedColorB % 0x20)
  }

  /** `state.scanlineState ?? new Array(224)`. */
  function LoadedLines(s: PpuSnapshot): seq<Option<LineState>>
  {
    if s.scanlineState.Some? then s.scanlineState.value else seq(HEIGHT, _ => None)
  }

  /** `state.oam ?? []`. */
  function OamSource(s: PpuSnapshot): seq<int>
  {
    if s.oam.Some? then s.oam.value else []
  }

  /** Every buffer of the snapshot fits its target, so no `set` throws. */
  predicate SnapshotFits(s: PpuSnapshot)
  {
    |s.registers| <= REGISTER_COUNT && |s.vram| <= VRAM_SIZE && |s.cgram| <= CGRAM_SIZE && |OamSource(s)| <= OAM_SIZE
  }

  /** The counters that `>>> 0` would wrap are below 2^32. */
  predicate Counters32(f: PpuFields)
  {
    f.frame < 0x1_0000_0000 && f.scanline < 0x1_0000_0000 && f.cycle < 0x1_0000_0000
    && f.masterCycleInFrame < 0x1_0000_0000 && f.vramIncrement < 0x1_0000_0000
  }

  /** Loading a saved snapshot restores every field, as long as no counter has passed 2^32. */
  lemma LoadSavedFields(f: PpuFields, registers: seq<byte>, vram: seq<byte>, cgram: seq<byte>, oam: seq<byte>,
                        lines: seq<Option<LineState>>)
    requires Counters32(f)
    ensures LoadedFields(Snapshot(f, registers, vram, cgram, oam, lines)) == f
    ensures LoadedLines(Snapshot(f, registers, vram, cgram, oam, lines)) == lines
  {
    var s := Snapshot(f, registers, vram, cgram, oam, lines);
    assert JsRemainder(s.oamByteAddress, OAM_SIZE) == f.oamByteAddress;
  }

  /** A saved snapshot of the PPU's own buffers always fits back, and `set` restores them. */
  lemma SavedSnapshotFits(f: PpuFields, registers: seq<byte>, vram: seq<byte>, cgram: seq<byte>, oam: seq<byte>,
                          lines: seq<Option<LineState>>)
    requires |registers| == REGISTER_COUNT && |vram| == VRAM_SIZE && |cgram| == CGRAM_SIZE && |oam| == OAM_SIZE
    ensures var s := Snapshot(f, registers, vram, cgram, oam, lines);
      && SnapshotFits(s)
      && SetContents(registers, s.registers) == registers && SetContents(vram, s.vram) == vram
      && SetContents(cgram, s.cgram) == cgram && SetContents(oam, OamSource(s)) == oam
  {
    SetOwnContents(registers);
    SetOwnContents(vram);
    SetOwnContents(cgram);
    SetOwnContents(oam);
  }

  // ---------------------------------------------------------------------
  // The PPU as a value

  /** What `readPPURegister(index)` returns: VRAM or CGRAM through the data ports, otherwise the register file. */
  function RegisterValue(f: PpuFields, registers: seq<byte>, vram: seq<byte>, cgram: seq<byte>, index: int): (r: byte)
    requires |registers| == REGISTER_COUNT && |vram| == VRAM_SIZE && |cgram| == CGRAM_SIZE
    ensures index % REGISTER_COUNT == 0x39 ==> r == vram[VramOffset(f, 0)]
    ensures index % REGISTER_COUNT == 0x3a ==> r == vram[VramOffset(f, 1)]
    ensures index % REGISTER_COUNT == 0x3b ==> r == cgram[CgramOffset(f)]
    ensures !(0x39 <= index % REGISTER_COUNT <= 0x3b) ==> r == registers[index % REGISTER_COUNT]
  {
    var mapped := index % REGISTER_COUNT;
    if mapped == 0x39 then vram[VramOffset(f, 0)]
    else if mapped == 0x3a then vram[VramOffset(f, 1)]
    else if mapped == 0x3b then cgram[CgramOffset(f)]
    else registers[mapped]
  }

  /** The values `latchScanlineState` records and `lineState?.x ?? …` falls back to. */
  function LiveState(f: PpuFields, registers: seq<byte>): LineState
    requires |registers| == REGISTER_COUNT
  {
    var s := f.scrolls;
    LineState(registers[0x23], registers[0x24], registers[0x25], registers[0x26], registers[0x27],
              registers[0x28], registers[0x29], registers[0x2a], registers[0x2b], registers[0x2e], registers[0x2f],
              registers[0x2c], registers[0x2d], registers[0x05], registers[0x30], registers[0x31],
              f.fixedColorR, f.fixedColorG, f.fixedColorB,
              s.bg1Hofs, s.bg1Vofs, s.bg2Hofs, s.bg2Vofs, s.bg3Hofs, s.bg3Vofs)
  }

  /** Everything of a `SNESPPU` that the bus reaches: its fields, latched lines and four memories. */
  datatype PpuView = PpuView(fields: PpuFields, lines: seq<Option<LineState>>, registers: seq<byte>,
                             vram: seq<byte>, cgram: seq<byte>, oam: seq<byte>)

  predicate ViewSized(v: PpuView)
  {
    |v.registers| == REGISTER_COUNT && |v.vram| == VRAM_SIZE && |v.cgram| == CGRAM_SIZE && |v.oam| == OAM_SIZE
  }

  /** The frame, line and dot counters. */
  function PositionOf(f: PpuFields): (nat, nat, nat, nat)
  {
    (f.frame, f.scanline, f.cycle, f.masterCycleInFrame)
  }

  /** `readPPURegister(index)` on a PPU value: the byte read, and the PPU after the port side effects. */
  function ViewRead(v: PpuView, index: int): (r: (byte, PpuView))
    requires ViewSized(v)
    ensures ViewSized(r.1) && PositionOf(r.1.fields) == PositionOf(v.fields)
    ensures r.1 == v.(fields := r.1.fields)
  {
    (RegisterValue(v.fields, v.registers, v.vram, v.cgram, index), v.(fields := ReadFields(v.fields, index % REGISTER_COUNT)))
  }

  /** `writePPURegister(index, value)` on a PPU value; the data ports are open in vblank or under the new forced blank. */
  function ViewWritten(v: PpuView, index: int, value: int): (r: PpuView)
    requires ViewSized(v)
    ensures ViewSized(r) && PositionOf(r.fields) == PositionOf(v.fields) && r.lines == v.lines
    ensures r.registers == v.registers[index % REGISTER_COUNT := value % 0x100]
  {
    var mapped := index % REGISTER_COUNT;
    var b := value % 0x100;
    var registers := v.registers[mapped := b];
    var open := CanAccessPorts(v.fields.vblank, registers[0]);
    PortsKeepPosition(v.fields, mapped, b, open);
    PpuView(WrittenFields(v.fields, mapped, b, open), v.lines, registers,
            VramAfterWrite(v.vram, v.fields, mapped, b, open), CgramAfterWrite(v.cgram, v.fields, mapped, b),
            OamAfterWrite(v.oam, v.fields, mapped, b, open))
  }

  /** `clock(masterCycles)` on a PPU value: the memories stay, the position moves by `masterCycles >>> 0`. */
  function ViewClocked(v: PpuView, masterCycles: int): (r: PpuView)
    requires ViewSized(v)
    ensures ViewSized(r) && r.registers == v.registers && r.vram == v.vram && r.cgram == v.cgram && r.oam == v.oam
    ensures r.fields == ClockedFields(v.fields, masterCycles % 0x1_0000_0000)
    ensures InFrame(v.fields) ==> InFrame(r.fields)
  {
    var step := masterCycles % 0x1_0000_0000;
    assert InFrame(v.fields) ==> InFrame(ClockedFields(v.fields, step)) by {
      if InFrame(v.fields) {
        ClockPreservesInFrame(v.fields, step);
      }
    }
    v.(fields := ClockedFields(v.fields, step), lines := ClockedLines(v.fields, step, v.registers[0] >= 0x80, v.lines))
  }

  /** `latchScanlineState(scanline)` on a PPU value. */
  function ViewLatched(v: PpuView, scanline: int): (r: PpuView)
    requires ViewSized(v)
    ensures r == v.(lines := r.lines)
  {
    if 0 <= scanline < HEIGHT then v.(lines := StoredLine(v.lines, scanline, LiveState(v.fields, v.registers))) else v
  }

  /** The side effects of register and port accesses never move the counters. */
  lemma PortsKeepPosition(f: PpuFields, mapped: int, b: byte, open: bool)
    ensures PositionOf(WrittenFields(f, mapped, b, open)) == PositionOf(f)
    ensures PositionOf(ReadFields(f, mapped)) == PositionOf(f)
  {
    if mapped == 0x02 || mapped == 0x03 || mapped == 0x04 {
      OamPortsKeepPosition(f, mapped, b, open);
    } else if ScrollRegister(mapped) {
      assert WrittenFields(f, mapped, b, open) == AfterScrollWrite(f, ScrollLayer(mapped), (mapped - 0x0d) % 2 == 0, b);
    } else if 0x15 <= mapped <= 0x17 {
      VramPortsKeepPosition(f, mapped, b, open);
    } else if 0x18 <= mapped <= 0x22 {
      DataPortsKeepPosition(f, mapped, b, open);
    } else if mapped == 0x32 {
      assert WrittenFields(f, mapped, b, open) == AfterFixedColor(f, b);
    }
  }

  lemma OamPortsKeepPosition(f: PpuFields, mapped: int, b: byte, open: bool)
    requires mapped == 0x02 || mapped == 0x03 || mapped == 0x04
    ensures PositionOf(WrittenFields(f, mapped, b, open)) == PositionOf(f)
  {
  }

  lemma VramPortsKeepPosition(f: PpuFields, mapped: int, b: byte, open: bool)
    requires 0x15 <= mapped <= 0x17
    ensures PositionOf(WrittenFields(f, mapped, b, open)) == PositionOf(f)
  {
  }

  lemma DataPortsKeepPosition(f: PpuFields, mapped: int, b: byte, open: bool)
    requires 0x18 <= mapped <= 0x22
    ensures PositionOf(WrittenFields(f, mapped, b, open)) == PositionOf(f)
  {
  }


  // ---------------------------------------------------------------------
  // The picture unit

  /** `_createScreenTarget`'s layer buffers: one colour, priority, source and eligibility per pixel. */
  class ScreenTarget {
    const subscreen: bool
    const colors: array<word>
    const priorities: array<int>
    const sources: array<byte>
    const objMathEligible: array<byte>

    predicate Valid()
    {
      colors.Length == PIXELS && priorities.Length == PIXELS && sources.Length == PIXELS
      && objMathEligible.Length == PIXELS && sources != objMathEligible
    }

    function PixelAt(i: int): Pixel
      requires Valid() && 0 <= i < PIXELS
      reads colors, priorities, sources, objMathEligible
    {
      Pixel(colors[i], priorities[i], sources[i], objMathEligible[i])
    }

    /** Every pixel starts as the backdrop colour at priority -32768, source backdrop, OBJ math eligible. */
    constructor(backdropColor: word, subscreen: bool)
      ensures Valid() && this.subscreen == subscreen
      ensures fresh(colors) && fresh(priorities) && fresh(sources) && fresh(objMathEligible)
      ensures forall i :: 0 <= i < PIXELS ==> PixelAt(i) == Pixel(backdropColor, -0x8000, LAYER_BACKDROP, 1)
    {
      this.subscreen := subscreen;
      colors := new word[PIXELS](_ => backdropColor);
      priorities := new int[PIXELS](_ => -0x8000);
      sources := new byte[PIXELS](_ => LAYER_BACKDROP);
      objMathEligible := new byte[PIXELS](_ => 1);
    }
  }

  class SNESPPU {
    const registers: array<byte>
    const vram: array<byte>
    const cgram: array<byte>
    const oam: array<byte>
    var fields: PpuFields
    var lines: seq<Option<LineState>>

    predicate Valid()
    {
      registers.Length == REGISTER_COUNT && vram.Length == VRAM_SIZE
      && cgram.Length == CGRAM_SIZE && oam.Length == OAM_SIZE
    }

    /** Zeroed memories, the initial fields and a cleared line state for all 224 lines. */
    constructor()
      ensures Valid() && fresh(registers) && fresh(vram) && fresh(cgram) && fresh(oam)
      ensures fields == InitialFields() && lines == seq(HEIGHT, _ => None)
      ensures registers[..] == seq(REGISTER_COUNT, _ => 0) && vram[..] == seq(VRAM_SIZE, _ => 0)
      ensures cgram[..] == seq(CGRAM_SIZE, _ => 0) && oam[..] == seq(OAM_SIZE, _ => 0)
    {
      registers := new byte[REGISTER_COUNT](_ => 0);
      vram := new byte[VRAM_SIZE](_ => 0);
      cgram := new byte[CGRAM_SIZE](_ => 0);
      oam := new byte[OAM_SIZE](_ => 0);
      fields := InitialFields();
      lines := seq(HEIGHT, _ => None);
      new;
      assert registers[..] == seq(REGISTER_COUNT, _ => 0);
      assert vram[..] == seq(VRAM_SIZE, _ => 0);
      assert cgram[..] == seq(CGRAM_SIZE, _ => 0);
      assert oam[..] == seq(OAM_SIZE, _ => 0);
    }

    /** INIDISP bit 7. */
    predicate ForcedBlank()
      requires Valid()
      reads registers
    {
      registers[0] >= 0x80
    }

    /** The values `latchScanlineState` records and `lineState?.x ?? …` falls back to. */
    function LiveLine(): LineState
      requires Valid()
      reads this, registers
    {
      LiveState(fields, registers[..])
    }

    /** The PPU as a value. */
    function View(): (v: PpuView)
      requires Valid()
      reads this, registers, vram, cgram, oam
      ensures ViewSized(v)
    {
      PpuView(fields, lines, registers[..], vram[..], cgram[..], oam[..])
    }

    /**
     * `clock(masterCycles)`: one pass over `masterCycles >>> 0` cycles that
     * moves the position, renders and enters vblank on reaching line 225, and
     * leaves vblank and counts the frame on reaching the frame end.
     */
    method Clock(masterCycles: int)
      requires Valid()
      modifies this
      ensures fields == ClockedFields(old(fields), masterCycles % 0x1_0000_0000)
      ensures lines == ClockedLines(old(fields), masterCycles % 0x1_0000_0000, ForcedBlank(), old(lines))
    {
      var remaining := masterCycles % 0x1_0000_0000;
      ghost var step := remaining;
      while remaining > 0
        invariant remaining == 0 || (remaining == step && fields == old(fields) && lines == old(lines))
        invariant remaining == 0 ==>
          fields == ClockedFields(old(fields), step) && lines == ClockedLines(old(fields), step, ForcedBlank(), old(lines))
        decreases remaining
      {
        Advance(remaining);
        remaining := 0;
      }
    }

    /** The body of `clock`'s loop: the whole step is taken in one turn. */
    method Advance(step: nat)
      requires Valid() && step > 0
      modifies this
      ensures fields == ClockedFields(old(fields), step)
      ensures lines == ClockedLines(old(fields), step, ForcedBlank(), old(lines))
    {
      var before := fields.masterCycleInFrame;
      var beforeScanline := before / LINE_CYCLES;
      var after := (before + step) % FRAME_CYCLES;
      var crossedFrame := before + step >= FRAME_CYCLES;
      fields := fields.(masterCycleInFrame := after, scanline := after / LINE_CYCLES, cycle := after % LINE_CYCLES);
      if beforeScanline < VBLANK_START_LINE && fields.scanline >= VBLANK_START_LINE {
        RenderFrame();
        EnterVblank();
      }
      if crossedFrame {
        ExitVblank();
        fields := fields.(frame := fields.frame + 1);
      }
    }

    /** `_enterVBlank`. */
    method EnterVblank()
      modifies this
      ensures fields == VblankEntered(old(fields)) && lines == old(lines)
    {
      fields := fields.(vblank := true, nmiFlag := true);
      if fields.nmiEnabled {
        fields := fields.(nmiPending := true);
      }
    }

    /** `_exitVBlank`. */
    method ExitVblank()
      modifies this
      ensures fields == old(fields).(vblank := false) && lines == old(lines)
    {
      fields := fields.(vblank := false);
    }

    /**
     * `_renderFrame`, for its effect on the model's state: under forced blank
     * only the frame buffer is cleared; otherwise the frame is drawn from the
     * latched lines, which are then cleared.
     */
    method RenderFrame()
      requires Valid()
      modifies this
      ensures fields == old(fields)
      ensures lines == if ForcedBlank() then old(lines) else Cleared(old(lines))
    {
      if ForcedBlank() {
        return;
      }
      ClearScanlineState();
    }

    /** `_clearScanlineState`. */
    method ClearScanlineState()
      modifies this
      ensures fields == old(fields) && lines == Cleared(old(lines))
    {
      var index := 0;
      while index < |lines|
        invariant 0 <= index <= |lines| && |lines| == |old(lines)| && fields == old(fields)
        invariant forall y :: 0 <= y < index ==> lines[y].None?
      {
        lines := lines[index := None];
        index := index + 1;
      }
    }

    /** `pollNMI`: reports a pending NMI once and clears it. */
    method PollNmi() returns (pending: bool)
      modifies this
      ensures pending == old(fields.nmiPending)
      ensures fields == old(fields).(nmiPending := false) && lines == old(lines)
    {
      if !fields.nmiPending {
        return false;
      }
      fields := fields.(nmiPending := false);
      return true;
    }

    /** `setNMIEnabled`. */
    method SetNmiEnabled(enabled: bool)
      modifies this
      ensures fields == old(fields).(nmiEnabled := enabled) && lines == old(lines)
    {
      fields := fields.(nmiEnabled := enabled);
    }

    /** `readNMIStatus`: bit 7 reports the NMI flag once, which the read clears. */
    method ReadNmiStatus() returns (value: byte)
      modifies this
      ensures value == NmiStatus(old(fields))
      ensures fields == old(fields).(nmiFlag := false) && lines == old(lines)
    {
      value := if fields.nmiFlag then 0x80 else 0;
      fields := fields.(nmiFlag := false);
    }

    /** `readHVBJOYStatus`: bit 7 in vblank, bit 6 in hblank; reading changes nothing. */
    method ReadHvbjoyStatus() returns (value: byte)
      ensures value == HvbjoyStatus(fields)
    {
      var inVblank := if fields.vblank then 0x80 else 0;
      var inHblank := if fields.cycle >= HBLANK_START_CYCLE then 0x40 else 0;
      value := inVblank + inHblank;
    }

    /** What `readPPURegister(index)` returns: VRAM or CGRAM through the data ports, otherwise the register file. */
    function PeekRegister(index: int): byte
      requires Valid()
      reads this, registers, vram, cgram
    {
      RegisterValue(fields, registers[..], vram[..], cgram[..], index)
    }

    /** `readPPURegister(index)`: the value `PeekRegister` gives, and the port side effects of `ReadFields`. */
    method ReadRegister(index: int) returns (value: byte)
      requires Valid()
      modifies this
      ensures value == old(PeekRegister(index))
      ensures fields == ReadFields(old(fields), index % REGISTER_COUNT) && lines == old(lines)
    {
      var mapped := index % REGISTER_COUNT;
      if mapped == 0x39 || mapped == 0x3a {
        var byteSelect := mapped - 0x39;
        value := vram[VramOffset(fields, byteSelect)];
        if byteSelect == 0 {
          if fields.vramIncrementOnLow {
            IncrementVramAddress();
          }
        } else if !fields.vramIncrementOnLow {
          IncrementVramAddress();
        }
        return;
      }
      if mapped == 0x3b {
        value := cgram[CgramOffset(fields)];
        fields := CgramAdvanced(fields);
        return;
      }
      value := registers[mapped];
    }

    /** `_incrementVRAMAddress`. */
    method IncrementVramAddress()
      modifies this
      ensures fields == Incremented(old(fields)) && lines == old(lines)
    {
      fields := fields.(vramAddress := (fields.vramAddress + fields.vramIncrement) % 0x8000);
    }

    /**
     * `writePPURegister(index, value)`: the byte goes into the register file,
     * then the register's side effects; VRAM and OAM data are stored only
     * while the ports are open (vblank or forced blank).
     */
    method WriteRegister(index: int, value: int)
      requires Valid()
      modifies this, registers, vram, cgram, oam
      ensures registers[..] == old(registers[..])[index % REGISTER_COUNT := value % 0x100]
      ensures var open := CanAccessPorts(old(fields).vblank, registers[0]);
        && fields == WrittenFields(old(fields), index % REGISTER_COUNT, value % 0x100, open)
        && vram[..] == VramAfterWrite(old(vram[..]), old(fields), index % REGISTER_COUNT, value % 0x100, open)
        && cgram[..] == CgramAfterWrite(old(cgram[..]), old(fields), index % REGISTER_COUNT, value % 0x100)
        && oam[..] == OamAfterWrite(old(oam[..]), old(fields), index % REGISTER_COUNT, value % 0x100, open)
      ensures lines == old(lines)
    {
      var mapped := index % REGISTER_COUNT;
      var b := value % 0x100;
      registers[mapped] := b;
      var open := CanAccessPorts(fields.vblank, registers[0]);
      if mapped == 0x04 {
        WriteOamData(b, open);
      } else if mapped == 0x18 || mapped == 0x19 {
        WriteVramData(mapped - 0x18, b, open);
      } else if mapped == 0x22 {
        WriteCgram(b);
      } else {
        WriteFields(mapped, b);
      }
    }

    /** The cases of `writePPURegister` that change only fields. */
    method WriteFields(mapped: int, b: byte)
      requires mapped != 0x04 && mapped != 0x18 && mapped != 0x19 && mapped != 0x22
      modifies this
      ensures forall open :: fields == WrittenFields(old(fields), mapped, b, open)
      ensures lines == old(lines)
    {
      if mapped == 0x02 {
        var word := (fields.oamAddress / 0x100) * 0x100 + b;
        fields := fields.(oamAddress := word, oamByteAddress := (word * 2) % OAM_SIZE);
      } else if mapped == 0x03 {
        var word := (b % 2) * 0x100 + fields.oamAddress % 0x100;
        fields := fields.(oamAddress := word, oamByteAddress := (word * 2) % OAM_SIZE);
      } else if mapped == 0x15 {
        fields := fields.(vramIncrement := VmainIncrement(b), vramIncrementOnLow := b < 0x80,
                          vramAddressRemapMode := (b / 4) % 4);
      } else if mapped == 0x16 {
        fields := fields.(vramAddress := (fields.vramAddress / 0x100) * 0x100 + b);
      } else if mapped == 0x17 {
        fields := fields.(vramAddress := fields.vramAddress % 0x100 + b * 0x100);
      } else if mapped == 0x21 {
        fields := fields.(cgramAddress := b, cgramHighLatch := false);
      } else if mapped == 0x32 {
        fields := AfterFixedColor(fields, b);
      } else if ScrollRegister(mapped) {
        fields := AfterScrollWrite(fields, ScrollLayer(mapped), (mapped - 0x0d) % 2 == 0, b);
      }
    }

    /** OAMDATA (0x04): when open, the byte is stored (a negative address drops it) and the addresses advance. */
    method WriteOamData(b: byte, open: bool)
      requires Valid()
      modifies this, oam
      ensures fields == WrittenFields(old(fields), 0x04, b, open)
      ensures oam[..] == OamAfterWrite(old(oam[..]), old(fields), 0x04, b, open) && lines == old(lines)
    {
      if open {
        if fields.oamByteAddress >= 0 {
          oam[fields.oamByteAddress] := b;
        }
        var next := JsRemainder(fields.oamByteAddress + 1, OAM_SIZE);
        fields := fields.(oamByteAddress := next, oamAddress := OamWordOf(next));
      }
    }

    /** VMDATAL/VMDATAH (0x18/0x19): when open the byte is stored; the address advances on the selected access regardless. */
    method WriteVramData(byteSelect: nat, b: byte, open: bool)
      requires Valid() && byteSelect < 2
      modifies this, vram
      ensures fields == WrittenFields(old(fields), 0x18 + byteSelect, b, open)
      ensures vram[..] == VramAfterWrite(old(vram[..]), old(fields), 0x18 + byteSelect, b, open)
      ensures lines == old(lines)
    {
      if open {
        vram[VramOffset(fields, byteSelect)] := b;
      }
      if byteSelect == 0 {
        if fields.vramIncrementOnLow {
          IncrementVramAddress();
        }
      } else if !fields.vramIncrementOnLow {
        IncrementVramAddress();
      }
    }

    /** `_writeCGRAM` (0x22). */
    method WriteCgram(b: byte)
      requires Valid()
      modifies this, cgram
      ensures forall open :: fields == WrittenFields(old(fields), 0x22, b, open)
      ensures cgram[..] == CgramAfterWrite(old(cgram[..]), old(fields), 0x22, b) && lines == old(lines)
    {
      cgram[CgramOffset(fields)] := b;
      fields := CgramAdvanced(fields);
    }

    /** `latchScanlineState(scanline)`: a visible line records the live window, math and scroll values; other lines are ignored. */
    method LatchScanlineState(scanline: int)
      requires Valid()
      modifies this
      ensures fields == old(fields)
      ensures lines == if 0 <= scanline < HEIGHT then StoredLine(old(lines), scanline, LiveLine()) else old(lines)
    {
      if scanline < 0 || scanline >= HEIGHT {
        return;
      }
      lines := StoredLine(lines, scanline, LiveLine());
    }

    /** `saveState`. */
    method SaveState() returns (state: PpuSnapshot)
      requires Valid()
      ensures state == Snapshot(fields, registers[..], vram[..], cgram[..], oam[..], lines)
    {
      state := Snapshot(fields, registers[..], vram[..], cgram[..], oam[..], lines);
    }

    /**
     * `loadState`: the four memories by `set`, each throwing a RangeError when
     * its buffer is too long (leaving the earlier ones restored), then the
     * fields and the line state, then `_renderFrame`.
     */
    method LoadState(state: PpuSnapshot) returns (outcome: Outcome)
      requires Valid()
      modifies this, registers, vram, cgram, oam
      ensures outcome == Done <==> SnapshotFits(state)
      ensures outcome.Fail? ==> outcome.error.RangeError? && fields == old(fields) && lines == old(lines)
      ensures registers[..] == if |state.registers| <= REGISTER_COUNT then SetContents(old(registers[..]), state.registers)
                               else old(registers[..])
      ensures outcome == Done ==>
        && vram[..] == SetContents(old(vram[..]), state.vram) && cgram[..] == SetContents(old(cgram[..]), state.cgram)
        && oam[..] == SetContents(old(oam[..]), OamSource(state))
        && fields == LoadedFields(state)
        && lines == if ForcedBlank() then LoadedLines(state) else Cleared(LoadedLines(state))
    {
      outcome := Set(registers, state.registers);
      if outcome.Fail? {
        return;
      }
      outcome := LoadMemories(state);
      if outcome.Fail? {
        return;
      }
      fields := LoadedFields(state);
      lines := LoadedLines(state);
      RenderFrame();
    }

    /** The VRAM, CGRAM and OAM `set` steps of `loadState`. */
    method LoadMemories(state: PpuSnapshot) returns (outcome: Outcome)
      requires Valid()
      modifies vram, cgram, oam
      ensures outcome == Done <==> |state.vram| <= VRAM_SIZE && |state.cgram| <= CGRAM_SIZE && |OamSource(state)| <= OAM_SIZE
      ensures outcome.Fail? ==> outcome.error.RangeError?
      ensures outcome == Done ==>
        && vram[..] == SetContents(old(vram[..]), state.vram) && cgram[..] == SetContents(old(cgram[..]), state.cgram)
        && oam[..] == SetContents(old(oam[..]), OamSource(state))
    {
      outcome := Set(vram, state.vram);
      if outcome.Fail? {
        return;
      }
      outcome := Set(cgram, state.cgram);
      if outcome.Fail? {
        return;
      }
      outcome := Set(oam, OamSource(state));
    }

    /** `_writeLayerPixel`: the pixel takes the palette colour and the new layer unless its priority is strictly lower. */
    method WriteLayerPixel(target: ScreenTarget, pixelIndex: int, paletteIndex: int, priority: int, source: byte,
                           objMathEligible: bool)
      requires Valid() && target.Valid() && 0 <= pixelIndex < PIXELS
      modifies target.colors, target.priorities, target.sources, target.objMathEligible
      ensures target.PixelAt(pixelIndex) ==
        LayerPixel(old(target.PixelAt(pixelIndex)), PaletteColor(cgram[..], paletteIndex), priority, source, objMathEligible)
      ensures forall i :: 0 <= i < PIXELS && i != pixelIndex ==> target.PixelAt(i) == old(target.PixelAt(i))
    {
      if priority < target.priorities[pixelIndex] {
        return;
      }
      target.priorities[pixelIndex] := Int16(priority);
      target.colors[pixelIndex] := PaletteColor(cgram[..], paletteIndex);
      target.sources[pixelIndex] := source;
      target.objMathEligible[pixelIndex] := if objMathEligible then 1 else 0;
    }
  }

  /** A fresh PPU holds its counters in step with its master cycle. */
  lemma InitialInFrame()
    ensures InFrame(InitialFields()) && Counters32(InitialFields())
  {
  }
}
