/** The LCD controller: a 40-cell character RAM (DDRAM), a 40-cell blink RAM
    (DARAM), 16 control registers (DCTRL) reached through an 8-bit latch
    address LA, and a 50 x 28 pixel buffer drawn either by the glyph
    rasteriser that a scan counter drives or by raw direct-draw writes.

    `Panel` is the controller's whole state as a value; the pure functions on
    it (`Control`, `WriteAt`, `Tick`) carry the controller's guarantees, and the
    methods of class `Display` update the fields in place and are proved to
    perform exactly those transitions. */
module Screen {
  import opened Bits
  import opened Lcd

  datatype Panel = Panel(
    ddram: seq<Byte>,
    daram: seq<Bit>,
    dctrl: seq<Byte>,
    pixels: seq<Bit>,
    blinkChar: nat,
    la: int,
    contrast: int,
    opacityOff: nat,
    opacityOn: nat,
    counter: nat,
    scan: nat,
    reflects: seq<Reflect>)

  /** The widths the control registers keep: 0 and 1 hold a 2-bit mode, 4..8
      and 12 a flag, and 9, 10, 11, 13, 14, 15 are never stored to (their
      handlers act instead); 2 and 3 hold any byte. */
  predicate ControlWidths(dctrl: seq<Byte>)
    requires |dctrl| == DCTRL_COUNT
  {
    dctrl[0] < 4 && dctrl[1] < 4 &&
    dctrl[4] <= 1 && dctrl[5] <= 1 && dctrl[6] <= 1 && dctrl[7] <= 1 && dctrl[8] <= 1 &&
    dctrl[9] == 0 && dctrl[10] == 0 && dctrl[11] == 0 && dctrl[12] <= 1 &&
    dctrl[13] == 0 && dctrl[14] == 0 && dctrl[15] == 0
  }

  /** The invariant of the controller state. The unlit opacity always follows the
      contrast; the lit one does too, except after a test fill forced it to full. */
  predicate PanelValid(p: Panel)
  {
    |p.ddram| == CHAR_COUNT && |p.daram| == CHAR_COUNT &&
    |p.dctrl| == DCTRL_COUNT && ControlWidths(p.dctrl) &&
    |p.pixels| == PIXEL_COUNT &&
    (p.blinkChar == 0 || p.blinkChar == 32 || p.blinkChar == 255) &&
    0 <= p.contrast <= CONTRAST_MAX &&
    p.opacityOff == OpacityOff(p.contrast) &&
    (p.opacityOn == OpacityOn(p.contrast) || p.opacityOn == 255) &&
    |p.reflects| == 2 && IsReflect(p.reflects[0]) && IsReflect(p.reflects[1])
  }

  /** The state after power-up: everything blank, contrast 16, and both halves
      with the unmirrored setting until their control register is written. */
  function InitialPanel(): (p: Panel)
    ensures PanelValid(p)
    ensures p.contrast == 16 && p.opacityOff == 6 && p.opacityOn == 240
  {
    Panel(seq(CHAR_COUNT, _ => 0), seq(CHAR_COUNT, _ => 0), seq(DCTRL_COUNT, _ => 0),
          seq(PIXEL_COUNT, _ => 0), 0, 0, 16, OpacityOff(16), OpacityOn(16), 0, 0,
          [Reflect(0, 0), Reflect(0, 0)])
  }

  /** The glyph shown in cell `charPos`: the blink glyph where the cell's blink
      bit is set and the blink glyph is not 0, the cell's own code otherwise. */
  function GlyphCode(p: Panel, charPos: nat): (code: nat)
    requires PanelValid(p) && charPos < CHAR_COUNT
    ensures code < 256
    ensures code == p.ddram[charPos] || code == p.blinkChar
  {
    if p.daram[charPos] != 0 && p.blinkChar != 0 then p.blinkChar else p.ddram[charPos]
  }

  /** Dot `dotX` of character column `charX` on segment `s`, read through the
      mirror setting of the segment's half. */
  function Dot(charset: seq<seq<seq<Bit>>>, p: Panel, s: ScanLine, charX: nat, dotX: nat): Bit
    requires IsCharset(charset) && PanelValid(p)
    requires s.charY < CHAR_COUNT_Y && s.dotY < DOT_COUNT_Y && charX < CHAR_COUNT_X && dotX < DOT_COUNT_X
  {
    var refl := p.reflects[s.charY / 2];
    charset[GlyphCode(p, s.charY * CHAR_COUNT_X + charX)][Abs(refl.y - s.dotY)][Abs(refl.x - dotX)]
  }

  /** The pixels of `p` with segment `s` drawn up to (not including) buffer
      column `lim`, one dot at a time from column `s.start * 5`. */
  function Painted(charset: seq<seq<seq<Bit>>>, p: Panel, s: ScanLine, lim: nat): (r: seq<Bit>)
    requires IsCharset(charset) && PanelValid(p)
    requires s.charY < CHAR_COUNT_Y && s.dotY < DOT_COUNT_Y && lim <= SCR_WIDTH
    ensures |r| == PIXEL_COUNT
  {
    seq(PIXEL_COUNT, i requires 0 <= i < PIXEL_COUNT => PaintedAt(charset, p, s, lim, i))
  }

  function PaintedAt(charset: seq<seq<seq<Bit>>>, p: Panel, s: ScanLine, lim: nat, i: nat): Bit
    requires IsCharset(charset) && PanelValid(p)
    requires s.charY < CHAR_COUNT_Y && s.dotY < DOT_COUNT_Y && lim <= SCR_WIDTH && i < PIXEL_COUNT
  {
    var base := ScanRow(s) * SCR_WIDTH;
    if base + s.start * DOT_COUNT_X <= i < base + lim
    then Dot(charset, p, s, (i - base) / DOT_COUNT_X, (i - base) % DOT_COUNT_X)
    else p.pixels[i]
  }

  lemma PaintedSnoc(charset: seq<seq<seq<Bit>>>, p: Panel, s: ScanLine, lim: nat)
    requires IsCharset(charset) && PanelValid(p)
    requires s.charY < CHAR_COUNT_Y && s.dotY < DOT_COUNT_Y && s.start * DOT_COUNT_X <= lim < SCR_WIDTH
    ensures Painted(charset, p, s, lim + 1) ==
      Painted(charset, p, s, lim)[PixelIndex(ScanRow(s), lim) := Dot(charset, p, s, lim / DOT_COUNT_X, lim % DOT_COUNT_X)]
  {
  }

  lemma DivModFive(q: nat, r: nat)
    requires r < 5
    ensures (q * 5 + r) / 5 == q && (q * 5 + r) % 5 == r
  {
  }

  /** A whole painted segment, read cell by cell. */
  lemma PaintedCells(charset: seq<seq<seq<Bit>>>, p: Panel, s: ScanLine)
    requires IsCharset(charset) && PanelValid(p)
    requires s.charY < CHAR_COUNT_Y && s.dotY < DOT_COUNT_Y && s.stop <= CHAR_COUNT_X
    ensures forall charX: nat, dotX: nat :: s.start <= charX < s.stop && dotX < DOT_COUNT_X ==>
      Painted(charset, p, s, s.stop * DOT_COUNT_X)[PixelIndex(ScanRow(s), charX * DOT_COUNT_X + dotX)] == Dot(charset, p, s, charX, dotX)
    ensures forall i :: 0 <= i < PIXEL_COUNT && (i / SCR_WIDTH != ScanRow(s) || i % SCR_WIDTH < s.start * DOT_COUNT_X || i % SCR_WIDTH >= s.stop * DOT_COUNT_X) ==>
      Painted(charset, p, s, s.stop * DOT_COUNT_X)[i] == p.pixels[i]
  {
    forall charX: nat, dotX: nat | s.start <= charX < s.stop && dotX < DOT_COUNT_X
      ensures Painted(charset, p, s, s.stop * DOT_COUNT_X)[PixelIndex(ScanRow(s), charX * DOT_COUNT_X + dotX)] == Dot(charset, p, s, charX, dotX)
    {
      DivModFive(charX, dotX);
    }
  }

  /** The pixels after one rasteriser step at scan counter `c`: the segment
      ScanLineOf(c) gets the glyph dots of its cells, every other pixel stays. */
  function ScanDrawn(charset: seq<seq<seq<Bit>>>, p: Panel, c: nat): (r: seq<Bit>)
    requires IsCharset(charset) && PanelValid(p)
    ensures |r| == PIXEL_COUNT
    ensures ScanLineOf(c).None? ==> r == p.pixels
    ensures ScanLineOf(c).Some? ==> var s := ScanLineOf(c).value;
      (forall charX: nat, dotX: nat :: s.start <= charX < s.stop && dotX < DOT_COUNT_X ==>
         r[PixelIndex(ScanRow(s), charX * DOT_COUNT_X + dotX)] == Dot(charset, p, s, charX, dotX)) &&
      (forall i :: 0 <= i < PIXEL_COUNT && (i / SCR_WIDTH != ScanRow(s) || i % SCR_WIDTH < s.start * DOT_COUNT_X || i % SCR_WIDTH >= s.stop * DOT_COUNT_X) ==>
         r[i] == p.pixels[i])
  {
    match ScanLineOf(c)
    case None => p.pixels
    case Some(s) =>
      PaintedCells(charset, p, s);
      Painted(charset, p, s, s.stop * DOT_COUNT_X)
  }

  /** `p` with contrast `c` and both opacities recomputed from it. */
  function WithContrast(p: Panel, c: int): (r: Panel)
    requires PanelValid(p) && 0 <= c <= CONTRAST_MAX
    ensures PanelValid(r) && r.contrast == c && r.opacityOn == OpacityOn(c)
  {
    p.(contrast := c, opacityOff := OpacityOff(c), opacityOn := OpacityOn(c))
  }

  /** The effect of control handler `index` receiving `value`. */
  function Control(p: Panel, index: nat, value: Byte): (r: Panel)
    requires PanelValid(p) && index < DCTRL_COUNT
    ensures PanelValid(r)
    ensures r.la == p.la && r.counter == p.counter && r.blinkChar == p.blinkChar
    // registers 0 and 1 keep the 2-bit mode and set their half's mirror
    ensures index == 0 ==> r.dctrl == p.dctrl[0 := value % 4] && r.reflects == p.reflects[0 := TopReflect(value % 4)]
    ensures index == 1 ==> r.dctrl == p.dctrl[1 := value % 4] && r.reflects == p.reflects[1 := BottomReflect(value % 4)]
    ensures index == 2 || index == 3 ==> r.dctrl == p.dctrl[index := value]
    ensures 4 <= index <= 8 ==> r.dctrl == p.dctrl[index := value % 2]
    // a test fill lights every pixel at full opacity
    ensures index == 6 && value % 2 == 1 ==> (forall i :: 0 <= i < PIXEL_COUNT ==> r.pixels[i] == 1) && r.opacityOn == 255
    ensures index == 6 && value % 2 == 0 ==> r.opacityOn == OpacityOn(r.contrast)
    ensures !(index == 6 && value % 2 == 1) ==> r.pixels == p.pixels
    // 9 and 10 step the contrast by one, only inside [0, 32]
    ensures index == 9 ==> r.contrast == (if p.contrast < CONTRAST_MAX then p.contrast + 1 else p.contrast)
    ensures index == 10 ==> r.contrast == (if p.contrast > 0 then p.contrast - 1 else p.contrast)
    ensures index != 9 && index != 10 ==> r.contrast == p.contrast
    ensures (index == 9 || index == 10) ==> r.dctrl == p.dctrl
    // the clearing handlers
    ensures index == 11 ==> forall i :: 0 <= i < DCTRL_COUNT ==> r.dctrl[i] == 0
    ensures index == 12 ==> r.dctrl == p.dctrl[12 := 1]
    ensures index == 13 ==> (forall i :: 0 <= i < CHAR_COUNT ==> r.ddram[i] == 0) && r.dctrl == p.dctrl
    ensures index == 14 ==> (forall i :: 0 <= i < CHAR_COUNT ==> r.daram[i] == 0) && r.dctrl == p.dctrl
    ensures index == 15 ==> r.scan == 0 && r.dctrl == p.dctrl
    ensures index != 13 ==> r.ddram == p.ddram
    ensures index != 14 ==> r.daram == p.daram
    ensures index != 15 ==> r.scan == p.scan
    ensures index > 1 ==> r.reflects == p.reflects
  {
    if index <= 1 then SetHalfMode(p, index, value)
    else if index == 2 || index == 3 then p.(dctrl := p.dctrl[index := value])
    else if index == 6 then SetTestFill(p, value)
    else if index <= 8 then p.(dctrl := p.dctrl[index := value % 2])
    else if index <= 10 then StepContrast(p, index == 9)
    else if index == 11 then p.(dctrl := seq(DCTRL_COUNT, _ => 0))
    else if index == 12 then p.(dctrl := p.dctrl[12 := 1])
    else if index == 13 then p.(ddram := seq(CHAR_COUNT, _ => 0))
    else if index == 14 then p.(daram := seq(CHAR_COUNT, _ => 0))
    else p.(scan := 0)
  }

  /** Handlers 0 and 1: the 2-bit mode of the top or bottom half and its mirror setting. */
  function SetHalfMode(p: Panel, half: nat, value: Byte): (r: Panel)
    requires PanelValid(p) && half <= 1
    ensures PanelValid(r)
    ensures r == p.(dctrl := r.dctrl, reflects := r.reflects)
  {
    var mode := value % 4;
    p.(dctrl := p.dctrl[half := mode],
       reflects := p.reflects[half := if half == 0 then TopReflect(mode) else BottomReflect(mode)])
  }

  /** Handler 6: bit 0 set lights every pixel at full opacity; clear, the lit
      opacity follows the contrast again. */
  function SetTestFill(p: Panel, value: Byte): (r: Panel)
    requires PanelValid(p)
    ensures PanelValid(r)
    ensures r == p.(dctrl := p.dctrl[6 := value % 2], pixels := r.pixels, opacityOn := r.opacityOn, opacityOff := r.opacityOff)
  {
    if value % 2 == 1 then p.(dctrl := p.dctrl[6 := 1], pixels := seq(PIXEL_COUNT, _ => 1), opacityOn := 255)
    else WithContrast(p.(dctrl := p.dctrl[6 := 0]), p.contrast)
  }

  /** Handlers 9 and 10: one step of contrast up or down, only inside [0, 32]. */
  function StepContrast(p: Panel, up: bool): (r: Panel)
    requires PanelValid(p)
    ensures PanelValid(r)
    ensures r == p.(contrast := r.contrast, opacityOn := r.opacityOn, opacityOff := r.opacityOff)
  {
    var c := ContrastStep(p.contrast, up);
    if c != p.contrast then WithContrast(p, c) else p
  }

  /** A write at address `addr` triggers a direct draw in direct-draw mode, or
      when it sets the direct-draw flag itself (address 112 + 7 with bit 0 set). */
  predicate DirectTrigger(p: Panel, addr: int, value: Byte)
    requires PanelValid(p)
  {
    p.dctrl[7] != 0 || (addr == DCTRL_OFFSET + 7 && value % 2 == 1)
  }

  /** The direct-draw half of a write: a triggering write draws at the scan
      counter (unless a test fill is on or the counter is past 512) and moves
      the counter on by one. */
  function DirectStep(p: Panel, addr: int, value: Byte): (r: Panel)
    requires PanelValid(p)
    ensures PanelValid(r)
    ensures r == p.(pixels := r.pixels, scan := r.scan)
    ensures !DirectTrigger(p, addr, value) ==> r == p
    ensures DirectTrigger(p, addr, value) ==> r.scan == p.scan + 1
    ensures DirectTrigger(p, addr, value) && p.dctrl[6] == 0 && p.scan < SCAN_LIMIT ==>
      r.pixels == DirectDrawn(p.pixels, p.scan, value)
    ensures p.dctrl[6] != 0 || p.scan >= SCAN_LIMIT ==> r.pixels == p.pixels
  {
    if DirectTrigger(p, addr, value) then
      p.(pixels := if p.dctrl[6] == 0 && p.scan < SCAN_LIMIT then DirectDrawn(p.pixels, p.scan, value) else p.pixels,
         scan := p.scan + 1)
    else p
  }

  /** The routing half of a write: 0..39 to DDRAM, 64..103 to DARAM (bit 0
      only), 112..127 to control handler `addr - 112`; anything else is dropped. */
  function Route(p: Panel, addr: int, value: Byte): (r: Panel)
    requires PanelValid(p)
    ensures PanelValid(r)
    ensures DDRAM_OFFSET <= addr < DDRAM_OFFSET + CHAR_COUNT ==> r == p.(ddram := p.ddram[addr - DDRAM_OFFSET := value])
    ensures DARAM_OFFSET <= addr < DARAM_OFFSET + CHAR_COUNT ==> r == p.(daram := p.daram[addr - DARAM_OFFSET := value % 2])
    ensures DCTRL_OFFSET <= addr < DCTRL_OFFSET + DCTRL_COUNT ==> r == Control(p, addr - DCTRL_OFFSET, value)
    ensures (!(DDRAM_OFFSET <= addr < DDRAM_OFFSET + CHAR_COUNT) && !(DARAM_OFFSET <= addr < DARAM_OFFSET + CHAR_COUNT) &&
             !(DCTRL_OFFSET <= addr < DCTRL_OFFSET + DCTRL_COUNT)) ==> r == p
  {
    if DDRAM_OFFSET <= addr < DDRAM_OFFSET + CHAR_COUNT then p.(ddram := p.ddram[addr - DDRAM_OFFSET := value])
    else if DARAM_OFFSET <= addr < DARAM_OFFSET + CHAR_COUNT then p.(daram := p.daram[addr - DARAM_OFFSET := value % 2])
    else if DCTRL_OFFSET <= addr < DCTRL_OFFSET + DCTRL_COUNT then Control(p, addr - DCTRL_OFFSET, value)
    else p
  }

  /** A write of `value` at address `addr`. It never moves LA. */
  function WriteAt(p: Panel, addr: int, value: Byte): (r: Panel)
    requires PanelValid(p)
    ensures PanelValid(r)
    ensures r.la == p.la && r.counter == p.counter && r.blinkChar == p.blinkChar
    ensures 0 <= addr < CHAR_COUNT ==> r.ddram == p.ddram[addr := value] && r.daram == p.daram && r.dctrl == p.dctrl
    ensures DARAM_OFFSET <= addr < DARAM_OFFSET + CHAR_COUNT ==>
      r.daram == p.daram[addr - DARAM_OFFSET := value % 2] && r.ddram == p.ddram && r.dctrl == p.dctrl
    ensures (!(0 <= addr < CHAR_COUNT) && !(DARAM_OFFSET <= addr < DARAM_OFFSET + CHAR_COUNT) &&
             !(DCTRL_OFFSET <= addr < DCTRL_OFFSET + DCTRL_COUNT)) ==>
      r.ddram == p.ddram && r.daram == p.daram && r.dctrl == p.dctrl && r.contrast == p.contrast
    ensures !DirectTrigger(p, addr, value) && addr != DCTRL_OFFSET + 15 ==> r.scan == p.scan
    ensures DirectTrigger(p, addr, value) && addr != DCTRL_OFFSET + 15 ==> r.scan == p.scan + 1
    // 112..127 reach the control handlers, after the direct-draw half of the write
    ensures DCTRL_OFFSET <= addr < DCTRL_OFFSET + DCTRL_COUNT ==>
      r == Control(DirectStep(p, addr, value), addr - DCTRL_OFFSET, value)
    // any other address changes at most one RAM cell, the pixels and the scan counter
    ensures !(DCTRL_OFFSET <= addr < DCTRL_OFFSET + DCTRL_COUNT) ==>
      r == p.(ddram := r.ddram, daram := r.daram, pixels := r.pixels, scan := r.scan) &&
      r.pixels == if DirectTrigger(p, addr, value) && p.dctrl[6] == 0 && p.scan < SCAN_LIMIT
                  then DirectDrawn(p.pixels, p.scan, value) else p.pixels
  {
    Route(DirectStep(p, addr, value), addr, value)
  }

  /** `writeDDRAM`: a write at LA, after which LA moves on by one (modulo 256). */
  function Put(p: Panel, value: Byte): (r: Panel)
    requires PanelValid(p)
    ensures PanelValid(r)
    ensures r.la == (p.la + 1) % 256
    ensures r.(la := p.la) == WriteAt(p, p.la, value)
    ensures 0 <= p.la < CHAR_COUNT ==> r.ddram == p.ddram[p.la := value] && r.daram == p.daram && r.dctrl == p.dctrl
  {
    WriteAt(p, p.la, value).(la := (p.la + 1) % 256)
  }

  /** The scan counter and control registers after the drawing part of a tick:
      without direct-draw mode the counter moves on by 4, and a pending forced
      redraw restarts it at 0 (and clears itself) once it has passed 512. */
  function ScanAdvance(scan: nat, dctrl: seq<Byte>): (r: (nat, seq<Byte>))
    requires |dctrl| == DCTRL_COUNT
    ensures |r.1| == DCTRL_COUNT
  {
    var s := if dctrl[7] == 0 then scan + 4 else scan;
    if dctrl[12] != 0 && s >= SCAN_LIMIT then (0, dctrl[12 := 0]) else (s, dctrl)
  }

  /** One controller tick. */
  function Tick(charset: seq<seq<seq<Bit>>>, p: Panel): (r: Panel)
    requires IsCharset(charset) && PanelValid(p)
    ensures PanelValid(r)
    ensures r.counter == p.counter + 1
    ensures r.la == p.la && r.ddram == p.ddram && r.daram == p.daram && r.contrast == p.contrast
    // every 1024 ticks the blink glyph toggles and, with auto-redraw on, the scan restarts
    ensures r.blinkChar == if p.counter % 1024 == 0 then NextBlink(p.blinkChar, p.dctrl[5] != 0) else p.blinkChar
    // between blink ticks the scan moves on by 4 (unless in direct-draw mode), and
    // a pending forced redraw restarts it once it has passed 512
    ensures p.counter % 1024 != 0 && p.dctrl[7] == 0 ==>
      if p.dctrl[12] != 0 && p.scan + 4 >= SCAN_LIMIT then r.scan == 0 && r.dctrl == p.dctrl[12 := 0]
      else r.scan == p.scan + 4 && r.dctrl == p.dctrl
    ensures p.counter % 1024 != 0 && p.dctrl[7] != 0 && p.dctrl[12] == 0 ==> r.scan == p.scan
    ensures r.dctrl == p.dctrl || (p.dctrl[12] != 0 && r.scan == 0 && r.dctrl == p.dctrl[12 := 0])
    // on a blink tick with auto-redraw on, the scan starts over before it is drawn and advanced
    ensures var s0 := if p.counter % 1024 == 0 && p.dctrl[8] != 0 then 0 else p.scan;
      (r.scan, r.dctrl) == ScanAdvance(s0, p.dctrl) &&
      r.pixels == if p.dctrl[7] == 0 && p.dctrl[4] == 0 && p.dctrl[6] == 0 && s0 < SCAN_LIMIT
                  then ScanDrawn(charset, p.(scan := s0, blinkChar := r.blinkChar), s0) else p.pixels
    ensures p.dctrl[7] != 0 ==> r.pixels == p.pixels
  {
    TickAdvance(TickDraw(charset, TickBlink(p)))
  }

  /** The blink part of a tick: every 1024 ticks the blink glyph toggles and,
      with auto-redraw on, the scan counter restarts. */
  function TickBlink(p: Panel): (r: Panel)
    requires PanelValid(p)
    ensures PanelValid(r)
    ensures r == p.(scan := r.scan, blinkChar := r.blinkChar)
    ensures r.blinkChar == if p.counter % 1024 == 0 then NextBlink(p.blinkChar, p.dctrl[5] != 0) else p.blinkChar
    ensures r.scan == if p.counter % 1024 == 0 && p.dctrl[8] != 0 then 0 else p.scan
  {
    if p.counter % 1024 == 0 then
      p.(scan := if p.dctrl[8] != 0 then 0 else p.scan, blinkChar := NextBlink(p.blinkChar, p.dctrl[5] != 0))
    else p
  }

  /** The drawing part of a tick: outside direct-draw and test-fill mode, with
      the display on and the counter below 512, one rasteriser step. */
  function TickDraw(charset: seq<seq<seq<Bit>>>, p: Panel): (r: Panel)
    requires IsCharset(charset) && PanelValid(p)
    ensures PanelValid(r)
    ensures r == p.(pixels := r.pixels)
    ensures r.pixels == if p.dctrl[7] == 0 && p.dctrl[4] == 0 && p.dctrl[6] == 0 && p.scan < SCAN_LIMIT
                        then ScanDrawn(charset, p, p.scan) else p.pixels
  {
    if p.dctrl[7] == 0 && p.dctrl[4] == 0 && p.dctrl[6] == 0 && p.scan < SCAN_LIMIT
    then p.(pixels := ScanDrawn(charset, p, p.scan)) else p
  }

  /** The counting part of a tick. */
  function TickAdvance(p: Panel): (r: Panel)
    requires PanelValid(p)
    ensures PanelValid(r)
    ensures r == p.(scan := r.scan, dctrl := r.dctrl, counter := p.counter + 1)
    ensures (r.scan, r.dctrl) == ScanAdvance(p.scan, p.dctrl)
  {
    var next := ScanAdvance(p.scan, p.dctrl);
    p.(scan := next.0, dctrl := next.1, counter := p.counter + 1)
  }

  /** What the debugger shows of the controller. */
  datatype DisplayView = DisplayView(ddram: map<nat, nat>, daram: map<nat, nat>, dctrl: map<nat, nat>, la: int)

  class Display {
    /** The character generator (code -> 7 rows x 5 dots). */
    const charset: seq<seq<seq<Bit>>>
    var ddram: seq<Byte>
    var daram: seq<Bit>
    var dctrl: seq<Byte>
    var pixels: seq<Bit>
    var blinkChar: nat
    var la: int
    var contrast: int
    /** Numerators over 255 of the opacity of an unlit and a lit pixel. */
    var opacityOff: nat
    var opacityOn: nat
    var counter: nat
    var scan: nat
    var reflects: seq<Reflect>

    function State(): Panel
      reads this
    {
      Panel(ddram, daram, dctrl, pixels, blinkChar, la, contrast, opacityOff, opacityOn, counter, scan, reflects)
    }

    ghost predicate Valid()
      reads this
    {
      IsCharset(charset) && PanelValid(State())
    }

    constructor (charset: seq<seq<seq<Bit>>>)
      requires IsCharset(charset)
      ensures Valid() && this.charset == charset && State() == InitialPanel()
    {
      this.charset := charset;
      ddram := seq(CHAR_COUNT, _ => 0);
      daram := seq(CHAR_COUNT, _ => 0);
      dctrl := seq(DCTRL_COUNT, _ => 0);
      pixels := seq(PIXEL_COUNT, _ => 0);
      blinkChar := 0;
      la := 0;
      contrast := 16;
      counter := 0;
      scan := 0;
      reflects := [Reflect(0, 0), Reflect(0, 0)];
      new;
      SetPixelOpacity();
    }

    method UpdateBlinkChar()
      requires Valid()
      modifies this`blinkChar
      ensures Valid() && blinkChar == NextBlink(old(blinkChar), dctrl[5] != 0)
    {
      if blinkChar != 0 {
        blinkChar := 0;
      } else {
        blinkChar := if dctrl[5] != 0 then 255 else 32;
      }
    }

    /** Draws the low five bits of `value` into the cell row counter `c` names. */
    method DirectDraw(c: nat, value: Byte)
      requires Valid()
      modifies this`pixels
      ensures Valid() && pixels == DirectDrawn(old(pixels), c, value)
    {
      if DirectDrawable(c) {
        var row := DirectRow(c);
        var v: nat := value;
        for dotX := 0 to DOT_COUNT_X
          invariant Valid()
          invariant v == Shifted(value, dotX)
          invariant pixels == DirectDrawnUpTo(old(pixels), c, value, dotX)
        {
          DirectDrawnSnoc(old(pixels), c, value, dotX);
          pixels := pixels[PixelIndex(row, DirectCol(c, dotX)) := v % 2];
          v := v / 2;
        }
      }
    }

    /** One rasteriser step at scan counter `c`. */
    method DrawScanline(c: nat)
      requires Valid()
      modifies this`pixels
      ensures Valid() && pixels == ScanDrawn(charset, old(State()), c)
    {
      var line := ScanLineOf(c);
      if line.Some? {
        var s := line.value;
        ghost var p0 := State();
        assert Painted(charset, p0, s, s.start * DOT_COUNT_X) == p0.pixels;
        for charX := s.start to s.stop
          invariant pixels == Painted(charset, p0, s, charX * DOT_COUNT_X)
        {
          DrawCell(p0, s, charX);
        }
      }
    }

    /** The five dots of character column `charX` on segment `s`. */
    method DrawCell(ghost p0: Panel, s: ScanLine, charX: nat)
      requires IsCharset(charset) && PanelValid(p0)
      requires p0.ddram == ddram && p0.daram == daram && p0.blinkChar == blinkChar && p0.reflects == reflects
      requires s.charY < CHAR_COUNT_Y && s.dotY < DOT_COUNT_Y && s.start <= charX < CHAR_COUNT_X
      requires pixels == Painted(charset, p0, s, charX * DOT_COUNT_X)
      modifies this`pixels
      ensures pixels == Painted(charset, p0, s, charX * DOT_COUNT_X + DOT_COUNT_X)
    {
      var refl := reflects[s.charY / 2];
      var row := ScanRow(s);
      var charPos := s.charY * CHAR_COUNT_X + charX;
      var code := if daram[charPos] != 0 && blinkChar != 0 then blinkChar else ddram[charPos];
      var glyphRow := charset[code][Abs(refl.y - s.dotY)];
      assert code == GlyphCode(p0, charPos);
      for dotX := 0 to DOT_COUNT_X
        invariant pixels == Painted(charset, p0, s, charX * DOT_COUNT_X + dotX)
      {
        DivModFive(charX, dotX);
        assert glyphRow[Abs(refl.x - dotX)] == Dot(charset, p0, s, charX, dotX);
        PaintedSnoc(charset, p0, s, charX * DOT_COUNT_X + dotX);
        pixels := pixels[PixelIndex(row, charX * DOT_COUNT_X + dotX) := glyphRow[Abs(refl.x - dotX)]];
      }
    }

    method SetPixelOpacity()
      requires 0 <= contrast <= CONTRAST_MAX
      modifies this`opacityOff, this`opacityOn
      ensures opacityOff == OpacityOff(contrast) && opacityOn == OpacityOn(contrast)
    {
      opacityOff := Max((contrast - 15) * 6, 0);
      opacityOn := Min(15 * contrast, 255);
    }

    /** Control handler `index` (the `_storeCR` table). */
    method StoreControl(index: nat, value: Byte)
      requires Valid() && index < DCTRL_COUNT
      modifies this
      ensures Valid() && State() == Control(old(State()), index, value)
    {
      if index <= 1 {
        StoreHalfMode(index, value);
      } else if index == 2 || index == 3 {
        dctrl := dctrl[index := value];
      } else if index == 6 {
        StoreTestFill(value);
      } else if index <= 8 {
        dctrl := dctrl[index := value % 2];
      } else if index <= 10 {
        StoreContrastStep(index == 9);
      } else if index == 11 {
        dctrl := seq(DCTRL_COUNT, _ => 0);
      } else if index == 12 {
        dctrl := dctrl[12 := 1];
      } else if index == 13 {
        ddram := seq(CHAR_COUNT, _ => 0);
      } else if index == 14 {
        daram := seq(CHAR_COUNT, _ => 0);
      } else {
        scan := 0;
      }
    }

    method StoreHalfMode(half: nat, value: Byte)
      requires Valid() && half <= 1
      modifies this`dctrl, this`reflects
      ensures Valid() && State() == SetHalfMode(old(State()), half, value)
    {
      dctrl := dctrl[half := value % 4];
      if half == 0 {
        reflects := reflects[0 := TopReflect(value % 4)];
      } else {
        reflects := reflects[1 := BottomReflect(value % 4)];
      }
    }

    method StoreTestFill(value: Byte)
      requires Valid()
      modifies this`dctrl, this`pixels, this`opacityOn, this`opacityOff
      ensures Valid() && State() == SetTestFill(old(State()), value)
    {
      dctrl := dctrl[6 := value % 2];
      if value % 2 == 1 {
        pixels := seq(PIXEL_COUNT, _ => 1);
        opacityOn := 255;
      } else {
        SetPixelOpacity();
      }
    }

    method StoreContrastStep(up: bool)
      requires Valid()
      modifies this`contrast, this`opacityOn, this`opacityOff
      ensures Valid() && State() == StepContrast(old(State()), up)
    {
      if up && contrast < CONTRAST_MAX {
        contrast := contrast + 1;
        SetPixelOpacity();
      } else if !up && contrast > 0 {
        contrast := contrast - 1;
        SetPixelOpacity();
      }
    }

    /** Python `writeDDRAMaddr(addr, value)`. */
    method WriteDDRAMaddr(addr: int, value: Byte)
      requires Valid()
      modifies this
      ensures Valid() && State() == WriteAt(old(State()), addr, value)
    {
      DirectWrite(addr, value);
      RouteWrite(addr, value);
    }

    method DirectWrite(addr: int, value: Byte)
      requires Valid()
      modifies this`pixels, this`scan
      ensures Valid() && State() == DirectStep(old(State()), addr, value)
    {
      if dctrl[7] != 0 || (addr == DCTRL_OFFSET + 7 && value % 2 == 1) {
        if dctrl[6] == 0 && scan < SCAN_LIMIT {
          DirectDraw(scan, value);
        }
        scan := scan + 1;
      }
    }

    method RouteWrite(addr: int, value: Byte)
      requires Valid()
      modifies this
      ensures Valid() && State() == Route(old(State()), addr, value)
    {
      if DDRAM_OFFSET <= addr < DDRAM_OFFSET + CHAR_COUNT {
        ddram := ddram[addr - DDRAM_OFFSET := value];
      } else if DARAM_OFFSET <= addr < DARAM_OFFSET + CHAR_COUNT {
        daram := daram[addr - DARAM_OFFSET := value % 2];
      } else if DCTRL_OFFSET <= addr < DCTRL_OFFSET + DCTRL_COUNT {
        StoreControl(addr - DCTRL_OFFSET, value);
      }
    }

    /** Python `writeDDRAM(value)`: a write at LA, then LA moves on, wrapping at 256. */
    method WriteDDRAM(value: Byte)
      requires Valid()
      modifies this
      ensures Valid() && State() == Put(old(State()), value)
    {
      WriteDDRAMaddr(la, value);
      la := (la + 1) % 256;
    }

    method SetLA(value: int)
      requires Valid()
      modifies this`la
      ensures Valid() && State() == old(State()).(la := value)
    {
      la := value;
    }

    /** Python `setDDRAM`, `setDARAM`, `setDCTRL`: writes at an offset inside one RAM. */
    method SetDDRAM(addr: int, value: Byte)
      requires Valid()
      modifies this
      ensures Valid() && State() == WriteAt(old(State()), addr + DDRAM_OFFSET, value)
    {
      WriteDDRAMaddr(addr + DDRAM_OFFSET, value);
    }

    method SetDARAM(addr: int, value: Byte)
      requires Valid()
      modifies this
      ensures Valid() && State() == WriteAt(old(State()), addr + DARAM_OFFSET, value)
    {
      WriteDDRAMaddr(addr + DARAM_OFFSET, value);
    }

    method SetDCTRL(addr: int, value: Byte)
      requires Valid()
      modifies this
      ensures Valid() && State() == WriteAt(old(State()), addr + DCTRL_OFFSET, value)
    {
      WriteDDRAMaddr(addr + DCTRL_OFFSET, value);
    }

    /** One controller tick. */
    method Clock()
      requires Valid()
      modifies this
      ensures Valid() && State() == Tick(charset, old(State()))
    {
      ClockBlink();
      ClockDraw();
      ClockAdvance();
    }

    method ClockBlink()
      requires Valid()
      modifies this`scan, this`blinkChar
      ensures Valid() && State() == TickBlink(old(State()))
    {
      if counter % 1024 == 0 {
        if dctrl[8] != 0 {
          scan := 0;
        }
        UpdateBlinkChar();
      }
    }

    method ClockDraw()
      requires Valid()
      modifies this`pixels
      ensures Valid() && State() == TickDraw(charset, old(State()))
    {
      if dctrl[7] == 0 && dctrl[4] == 0 && dctrl[6] == 0 && scan < SCAN_LIMIT {
        DrawScanline(scan);
      }
    }

    method ClockAdvance()
      requires Valid()
      modifies this`scan, this`dctrl, this`counter
      ensures Valid() && State() == TickAdvance(old(State()))
    {
      if dctrl[7] == 0 {
        scan := scan + 4;
      }
      if dctrl[12] != 0 && scan >= SCAN_LIMIT {
        scan := 0;
        dctrl := dctrl[12 := 0];
      }
      counter := counter + 1;
    }

    /** Python `getPixels()` as opacity numerators over 255: an unlit pixel
        shows the contrast's off opacity; a lit one its on opacity, or full
        opacity while the test fill holds it. */
    function PixelOpacities(): (r: seq<nat>)
      reads this
      requires Valid()
      ensures |r| == PIXEL_COUNT
      ensures forall i :: 0 <= i < PIXEL_COUNT ==> r[i] == if pixels[i] == 1 then opacityOn else opacityOff
      ensures forall i :: 0 <= i < PIXEL_COUNT && pixels[i] != 1 ==> r[i] == OpacityOff(contrast)
      ensures forall i :: 0 <= i < PIXEL_COUNT && pixels[i] == 1 ==> r[i] == OpacityOn(contrast) || r[i] == 255
      ensures forall i :: 0 <= i < PIXEL_COUNT ==> r[i] <= 255 && (pixels[i] == 1 ==> r[i] >= opacityOff)
    {
      OpacityMonotone(contrast, contrast);
      var px, on, off := pixels, opacityOn, opacityOff;
      seq(PIXEL_COUNT, i requires 0 <= i < PIXEL_COUNT => if px[i] == 1 then on else off)
    }

    /** Python `examine()`: the three RAMs as index-to-value maps, and LA. */
    function Examine(): (v: DisplayView)
      reads this
      requires Valid()
      ensures v.la == la
      ensures forall i :: i in v.ddram <==> 0 <= i < CHAR_COUNT
      ensures forall i :: 0 <= i < CHAR_COUNT ==> i in v.ddram && v.ddram[i] == ddram[i] && i in v.daram && v.daram[i] == daram[i]
      ensures forall i :: 0 <= i < DCTRL_COUNT ==> i in v.dctrl && v.dctrl[i] == dctrl[i]
    {
      DisplayView(map i | 0 <= i < CHAR_COUNT :: ddram[i], map i | 0 <= i < CHAR_COUNT :: daram[i],
                  map i | 0 <= i < DCTRL_COUNT :: dctrl[i], la)
    }
  }
}
