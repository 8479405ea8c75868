/** Pure geometry and register decoding of the LCD controller: how a scan
    counter value names a row of character dots, where the direct-draw path and
    the glyph rasteriser put their pixels in the 50 x 28 buffer, the mirror
    settings of the two display halves, and the contrast-to-opacity numerators. */
module Lcd {
  import opened Bits

  const CHAR_COUNT_X := 10
  const CHAR_COUNT_Y := 4
  const CHAR_COUNT := 40
  const DOT_COUNT_X := 5
  const DOT_COUNT_Y := 7
  const SCR_WIDTH := 50
  const SCR_HEIGHT := 28
  const PIXEL_COUNT := 1400
  const DDRAM_OFFSET := 0
  const DARAM_OFFSET := 64
  const DCTRL_OFFSET := 112
  const DCTRL_COUNT := 16
  /** The scan counter only draws below 32 * 16. */
  const SCAN_LIMIT := 512
  const CONTRAST_MAX := 32

  /** A character generator: 256 glyphs of 7 rows of 5 dots. */
  predicate IsCharset(charset: seq<seq<seq<Bit>>>)
  {
    |charset| == 256 &&
    forall c :: 0 <= c < 256 ==>
      |charset[c]| == DOT_COUNT_Y && forall r :: 0 <= r < DOT_COUNT_Y ==> |charset[c][r]| == DOT_COUNT_X
  }

  /** The mirror setting of one display half: glyph dots are read from column
      |x - dotX| and row |y - dotY| of the glyph. */
  datatype Reflect = Reflect(x: int, y: int)

  predicate IsReflect(r: Reflect)
  {
    (r.x == 0 || r.x == 4) && (r.y == 0 || r.y == 6)
  }

  /** The top half's mirror for the 2-bit mode written to control register 0. */
  function TopReflect(mode: nat): (r: Reflect)
    requires mode < 4
    ensures IsReflect(r)
  {
    if mode == 0 then Reflect(0, 0) else if mode == 1 then Reflect(4, 0) else Reflect(4, 6)
  }

  /** The bottom half's mirror for the 2-bit mode written to control register 1. */
  function BottomReflect(mode: nat): (r: Reflect)
    requires mode < 4
    ensures IsReflect(r)
  {
    if mode == 0 then Reflect(4, 6) else if mode == 1 then Reflect(0, 6) else Reflect(0, 0)
  }

  /** Mode 0 of the bottom half mirrors both ways what mode 0 of the top half
      leaves alone, and modes 2 and 3 are the same setting in both halves. */
  lemma ReflectModes()
    ensures TopReflect(0) == BottomReflect(2) && BottomReflect(0) == TopReflect(2)
    ensures TopReflect(2) == TopReflect(3) && BottomReflect(2) == BottomReflect(3)
  {
  }

  /** Fields of a scan counter value: Python `(c >> 4) & 7`, `c & 0xF`, `(c >> 7) & 3`. */
  function DotY(c: nat): nat { (c / 16) % 8 }
  function CharX(c: nat): nat { c % 16 }
  function CharY(c: nat): nat { (c / 128) % 4 }

  /** Index of the pixel at `row`, `col` in the row-major buffer. */
  function PixelIndex(row: nat, col: nat): (i: nat)
    requires row < SCR_HEIGHT && col < SCR_WIDTH
    ensures i < PIXEL_COUNT && i / SCR_WIDTH == row && i % SCR_WIDTH == col
  {
    row * SCR_WIDTH + col
  }

  /** The direct-draw path draws only counters naming a character column below
      10 and a dot row below 7. */
  predicate DirectDrawable(c: nat)
  {
    CharX(c) < CHAR_COUNT_X && DotY(c) < DOT_COUNT_Y
  }

  /** The buffer row that direct-draw counter `c` writes. Rows 2 and 3 of
      characters are the bottom half, which is drawn rotated: its character row
      is swapped (Python `charY ^= 1`) and its dot row counted from the bottom. */
  function DirectRow(c: nat): (row: nat)
    requires DirectDrawable(c)
    ensures row < SCR_HEIGHT
  {
    var cy := CharY(c);
    if cy > 1 then (if cy == 2 then 3 else 2) * DOT_COUNT_Y + (DOT_COUNT_Y - 1 - DotY(c))
    else cy * DOT_COUNT_Y + DotY(c)
  }

  /** The buffer column where direct-draw counter `c` puts bit `j` of the value. */
  function DirectCol(c: nat, j: nat): (col: nat)
    requires DirectDrawable(c) && j < DOT_COUNT_X
    ensures col < SCR_WIDTH
  {
    if CharY(c) > 1 then (CHAR_COUNT_X - 1 - CharX(c)) * DOT_COUNT_X + (4 - j)
    else CharX(c) * DOT_COUNT_X + j
  }

  /** A direct draw fills the five dots of one character cell row: distinct
      columns inside the cell, one per bit of the value. */
  lemma DirectColsDistinct(c: nat, j: nat, k: nat)
    requires DirectDrawable(c) && j < DOT_COUNT_X && k < DOT_COUNT_X
    ensures DirectCol(c, j) == DirectCol(c, k) <==> j == k
    ensures DirectCol(c, j) / DOT_COUNT_X == DirectCol(c, 0) / DOT_COUNT_X
  {
  }

  /** The top half is drawn where the counter points; the bottom half is the
      same layout turned by 180 degrees inside rows 14..27. */
  lemma DirectDrawRotation(c: nat, j: nat)
    requires DirectDrawable(c) && j < DOT_COUNT_X
    ensures var row := CharY(c) * DOT_COUNT_Y + DotY(c);
      var col := CharX(c) * DOT_COUNT_X + j;
      if CharY(c) <= 1 then DirectRow(c) == row && DirectCol(c, j) == col
      else DirectRow(c) == 41 - row && DirectCol(c, j) == 49 - col
  {
  }

  /** The bit of the value that direct-draw counter `c` puts in buffer column
      `col` (the inverse of DirectCol); outside the cell it is out of 0..4. */
  function DirectDot(c: nat, col: int): int
    requires DirectDrawable(c)
  {
    if CharY(c) > 1 then (CHAR_COUNT_X - 1 - CharX(c)) * DOT_COUNT_X + 4 - col
    else col - CharX(c) * DOT_COUNT_X
  }

  lemma DirectDotInverse(c: nat, j: nat, col: int)
    requires DirectDrawable(c) && j < DOT_COUNT_X
    ensures DirectDot(c, DirectCol(c, j)) == j
    ensures DirectDot(c, col) == j ==> col == DirectCol(c, j)
  {
  }

  /** The buffer after the first `k` bits of a direct draw of `value` at counter `c`. */
  function DirectDrawnUpTo(px: seq<Bit>, c: nat, value: nat, k: nat): (r: seq<Bit>)
    requires |px| == PIXEL_COUNT && DirectDrawable(c)
    ensures |r| == PIXEL_COUNT
  {
    seq(PIXEL_COUNT, i requires 0 <= i < PIXEL_COUNT =>
      if i / SCR_WIDTH == DirectRow(c) && 0 <= DirectDot(c, i % SCR_WIDTH) < k
      then BitAt(value, DirectDot(c, i % SCR_WIDTH)) else px[i])
  }

  /** One more bit of a direct draw is a single pixel write. */
  lemma DirectDrawnSnoc(px: seq<Bit>, c: nat, value: nat, k: nat)
    requires |px| == PIXEL_COUNT && DirectDrawable(c) && k < DOT_COUNT_X
    ensures DirectDrawnUpTo(px, c, value, k + 1) ==
      DirectDrawnUpTo(px, c, value, k)[PixelIndex(DirectRow(c), DirectCol(c, k)) := BitAt(value, k)]
  {
    var lhs := DirectDrawnUpTo(px, c, value, k + 1);
    var rhs := DirectDrawnUpTo(px, c, value, k)[PixelIndex(DirectRow(c), DirectCol(c, k)) := BitAt(value, k)];
    forall i | 0 <= i < PIXEL_COUNT ensures lhs[i] == rhs[i] {
      DirectDotInverse(c, k, i % SCR_WIDTH);
    }
  }

  /** The buffer after a direct draw of `value` at counter `c`: bit j of the value
      goes to dot j of the counter's cell row, and a counter naming no drawable
      cell row draws nothing. */
  function DirectDrawn(px: seq<Bit>, c: nat, value: nat): (r: seq<Bit>)
    requires |px| == PIXEL_COUNT
    ensures |r| == PIXEL_COUNT
  {
    if DirectDrawable(c) then DirectDrawnUpTo(px, c, value, DOT_COUNT_X) else px
  }

  /** A direct draw sets exactly the five dots of its cell row, dot j to bit j of
      the value, and leaves every other pixel of the buffer as it was. */
  lemma {:induction false} DirectDrawnDots(px: seq<Bit>, c: nat, value: nat)
    requires |px| == PIXEL_COUNT && DirectDrawable(c)
    ensures forall j :: 0 <= j < DOT_COUNT_X ==>
      DirectDrawn(px, c, value)[PixelIndex(DirectRow(c), DirectCol(c, j))] == BitAt(value, j)
    ensures forall i :: 0 <= i < PIXEL_COUNT && (forall j :: 0 <= j < DOT_COUNT_X ==> i != PixelIndex(DirectRow(c), DirectCol(c, j))) ==>
      DirectDrawn(px, c, value)[i] == px[i]
  {
    forall j | 0 <= j < DOT_COUNT_X
      ensures DirectDrawn(px, c, value)[PixelIndex(DirectRow(c), DirectCol(c, j))] == BitAt(value, j)
    {
      DirectDotInverse(c, j, 0);
    }
    forall i | 0 <= i < PIXEL_COUNT && (forall j :: 0 <= j < DOT_COUNT_X ==> i != PixelIndex(DirectRow(c), DirectCol(c, j)))
      ensures DirectDrawn(px, c, value)[i] == px[i]
    {
      var d := DirectDot(c, i % SCR_WIDTH);
      if i / SCR_WIDTH == DirectRow(c) && 0 <= d < DOT_COUNT_X {
        DirectDotInverse(c, d, i % SCR_WIDTH);
        assert false;
      }
    }
  }

  /** Python `abs(x)`. */
  function Abs(x: int): nat { if x < 0 then -x else x }

  /** The part of the buffer one rasteriser step redraws: dot row `dotY` of
      character row `charY`, character columns `start` to `stop - 1`. */
  datatype ScanLine = ScanLine(charY: nat, dotY: nat, start: nat, stop: nat)

  /** The segment rasterised for scan counter `c`, or None when the counter
      names no drawable segment. The segment runs from one column before the
      counter's column to three after it, clipped to the 10 columns; in the
      bottom half it is mirrored like the direct-draw path. */
  function ScanLineOf(c: nat): (r: Option<ScanLine>)
    ensures r.Some? ==> r.value.charY < CHAR_COUNT_Y && r.value.dotY < DOT_COUNT_Y
    ensures r.Some? ==> r.value.start < r.value.stop <= CHAR_COUNT_X
    ensures r.Some? <==> CharX(c) <= CHAR_COUNT_X && DotY(c) < DOT_COUNT_Y
  {
    var dotY := DotY(c);
    var start := Max(CharX(c) - 1, 0);
    if start < CHAR_COUNT_X && dotY < DOT_COUNT_Y then
      var stop := Min(CharX(c) + 3, CHAR_COUNT_X);
      var cy := CharY(c);
      if cy > 1 then
        Some(ScanLine(if cy == 2 then 3 else 2, DOT_COUNT_Y - 1 - dotY, CHAR_COUNT_X - stop, CHAR_COUNT_X - start))
      else
        Some(ScanLine(cy, dotY, start, stop))
    else None
  }

  /** The buffer row of a segment. */
  function ScanRow(s: ScanLine): (row: nat)
    requires s.charY < CHAR_COUNT_Y && s.dotY < DOT_COUNT_Y
    ensures row < SCR_HEIGHT
  {
    s.charY * DOT_COUNT_Y + s.dotY
  }

  /** Counting the scan counter up by 4 from 0 redraws every character column of
      a dot row: the segments for counter columns 0, 4 and 8 together cover
      columns 0..9, and column 12 draws nothing. */
  lemma ScanSegmentsCover(c: nat)
    requires CharX(c) == 0 && DotY(c) < DOT_COUNT_Y
    ensures var s0 := ScanLineOf(c); var s4 := ScanLineOf(c + 4); var s8 := ScanLineOf(c + 8);
      s0.Some? && s4.Some? && s8.Some? && ScanLineOf(c + 12).None? &&
      s0.value.charY == s4.value.charY == s8.value.charY &&
      s0.value.dotY == s4.value.dotY == s8.value.dotY &&
      (if CharY(c) <= 1 then
         s0.value.start == 0 && s0.value.stop == s4.value.start &&
         s4.value.stop == s8.value.start && s8.value.stop == CHAR_COUNT_X
       else
         s8.value.start == 0 && s8.value.stop == s4.value.start &&
         s4.value.stop == s0.value.start && s0.value.stop == CHAR_COUNT_X)
  {
    SameCounterRow(c, 4);
    SameCounterRow(c, 8);
    SameCounterRow(c, 12);
  }

  /** Counters `d < 16` past a multiple of 16 differ only in the column. */
  lemma SameCounterRow(c: nat, d: nat)
    requires CharX(c) == 0 && d < 16
    ensures CharX(c + d) == d && DotY(c + d) == DotY(c) && CharY(c + d) == CharY(c)
  {
    var q := c / 16;
    assert c + d == 16 * q + d;
    assert (c + d) / 16 == q;
    assert c == 128 * (q / 8) + 16 * (q % 8);
    assert c + d == 128 * (q / 8) + (16 * (q % 8) + d);
  }

  /** Numerator over 255 of the opacity of an unlit pixel: `max((c - 15) * 6, 0)`. */
  function OpacityOff(contrast: int): (o: nat)
    requires 0 <= contrast <= CONTRAST_MAX
    ensures o <= 255 && (o == 0 <==> contrast <= 15)
  {
    Max((contrast - 15) * 6, 0)
  }

  /** Numerator over 255 of the opacity of a lit pixel: `min(15 * c, 255)`. */
  function OpacityOn(contrast: int): (o: nat)
    requires 0 <= contrast <= CONTRAST_MAX
    ensures o <= 255 && (o == 255 <==> contrast >= 17)
  {
    Min(15 * contrast, 255)
  }

  /** A lit pixel is never fainter than an unlit one, and raising the contrast
      never makes either fainter. */
  lemma OpacityMonotone(c: int, d: int)
    requires 0 <= c <= d <= CONTRAST_MAX
    ensures OpacityOff(c) <= OpacityOn(c)
    ensures OpacityOff(c) <= OpacityOff(d) && OpacityOn(c) <= OpacityOn(d)
  {
  }

  /** Contrast after control register 9 (`up`) or 10: one step, only inside [0, 32]. */
  function ContrastStep(contrast: int, up: bool): (r: int)
    requires 0 <= contrast <= CONTRAST_MAX
    ensures 0 <= r <= CONTRAST_MAX
    ensures up ==> r == if contrast < CONTRAST_MAX then contrast + 1 else contrast
    ensures !up ==> r == if contrast > 0 then contrast - 1 else contrast
  {
    if up then (if contrast < CONTRAST_MAX then contrast + 1 else contrast)
    else (if contrast > 0 then contrast - 1 else contrast)
  }

  /** The next blink glyph: a shown glyph turns off, and an off glyph turns into
      the full block 255 in blink mode or the blank 32 otherwise. */
  function NextBlink(blink: nat, blinkMode: bool): (r: nat)
    ensures r == 0 <==> blink != 0
    ensures r in {0, 32, 255}
  {
    if blink != 0 then 0 else if blinkMode then 255 else 32
  }

  /** Two toggles bring a shown blink glyph back when the mode stays the same. */
  lemma BlinkPeriod(blink: nat, blinkMode: bool)
    requires blink == (if blinkMode then 255 else 32)
    ensures NextBlink(NextBlink(blink, blinkMode), blinkMode) == blink
  {
  }

  /** Python `(value >> k) & 1`: bit `k` of a byte. */
  function Shifted(value: nat, k: nat): nat
  {
    if k == 0 then value else Shifted(value, k - 1) / 2
  }

  function BitAt(value: nat, k: nat): Bit
  {
    Shifted(value, k) % 2
  }
}
