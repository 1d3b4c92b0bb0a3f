/** The daemon's renderer: fixed slot geometry, one widget a slot. */
module Layout {
  import opened Basics
  import opened Protocol
  import opened Assistant

  const DATA: byte := 180

  datatype Template = ClockGauge | NumberTwoGauges | FullGauge
  datatype Presentation = Clock | Number | Gauge
  datatype Source = Time | Battery | Context | Activity | FiveHour | Weekly

  datatype Brightness = Brightness(minimum: byte, maximum: byte, manual: byte, off: bool) {
    predicate Valid() {
      minimum > 0 && minimum <= maximum && manual >= minimum && manual <= maximum
    }

    function Level(): Option<byte> {
      if Valid() && !off then Some(manual) else None
    }
  }

  datatype Widget = Widget(
    provider: Provider, sessionId: Option<string>, source: Source, presentation: Presentation,
    intensity: Option<byte>, reversed: bool, hideLeadingHourZero: bool, warningThreshold: Option<byte>)

  datatype PanelLayout = PanelLayout(
    name: string, template: Template, slots: seq<Option<Widget>>,
    binding: Option<string>, brightnessOverride: Option<Brightness>)

  function Presentations(t: Template): seq<Presentation> {
    match t
    case ClockGauge => [Clock, Gauge]
    case NumberTwoGauges => [Number, Gauge, Gauge]
    case FullGauge => [Gauge]
  }

  function DefaultSource(t: Template, index: nat): Source {
    match t
    case ClockGauge => if index == 0 then Time else Battery
    case FullGauge => Battery
    case NumberTwoGauges => if index == 0 then Context else if index == 1 then FiveHour else Weekly
  }

  function DefaultSlots(t: Template): seq<Option<Widget>> {
    seq(|Presentations(t)|, i requires 0 <= i < |Presentations(t)| =>
      Some(Widget(Claude, None, DefaultSource(t, i), Presentations(t)[i], None, false, false, None)))
  }

  function DefaultPanels(): seq<PanelLayout> {
    [PanelLayout("left", ClockGauge, DefaultSlots(ClockGauge), None, None),
     PanelLayout("right", NumberTwoGauges, DefaultSlots(NumberTwoGauges), None, None)]
  }

  // ------------------------------------------------------------------ readings

  /** A floating-point reading; arithmetic on finite ones is over the reals. */
  datatype Float = Finite(value: real) | NotFinite

  datatype Readings = Readings(
    sessions: seq<Session>, defaultClockIntensity: byte, hour: byte, minute: byte,
    battery: Option<Float>, context: Option<Float>, activity: Option<Float>,
    fiveHour: Option<Float>, weekly: Option<Float>)

  function SessionOf(r: Readings, w: Widget): Option<Session> {
    Selected(r.sessions, w.provider, w.sessionId)
  }

  function Reading(r: Readings, w: Widget): Option<Float> {
    match w.source
    case Time => None
    case Battery => r.battery
    case Context =>
      if r.context.Some? then r.context
      else
        var s := SessionOf(r, w);
        if s.Some? && s.value.contextPercent.Some? then Some(Finite(s.value.contextPercent.value as real)) else None
    case Activity =>
      if r.activity.Some? then r.activity
      else
        var s := SessionOf(r, w);
        if s.Some? then Some(Finite(if s.value.busy then 100.0 else 0.0)) else None
    case FiveHour => r.fiveHour
    case Weekly => r.weekly
  }

  function Value(r: Readings, w: Widget): Option<real> {
    var reading := Reading(r, w);
    if reading.Some? && reading.value.Finite? then Some(reading.value.value) else None
  }

  // ------------------------------------------------------------------- numbers

  type Glyph = seq<string>

  const FONT: seq<Glyph> := [
    ["###", "#.#", "#.#", "#.#", "###"],
    [".#.", "##.", ".#.", ".#.", "###"],
    ["###", "..#", "###", "#..", "###"],
    ["###", "..#", "###", "..#", "###"],
    ["#.#", "#.#", "###", "..#", "..#"],
    ["###", "#..", "###", "..#", "###"],
    ["###", "#..", "###", "#.#", "###"],
    ["###", "..#", "..#", "..#", "..#"],
    ["###", "#.#", "###", "#.#", "###"],
    ["###", "#.#", "###", "..#", "###"]]

  const OVERFLOW: Glyph := ["#.#", "#.#", ".#.", "#.#", "#.#"]

  predicate GlyphShape(g: Glyph) {
    |g| == 5 && forall i :: 0 <= i < 5 ==> |g[i]| == 3
  }

  lemma GlyphShapes()
    ensures |FONT| == 10 && GlyphShape(OVERFLOW)
    ensures forall d :: 0 <= d < 10 ==> GlyphShape(FONT[d])
  {
  }

  /** The glyph at the tens (0) or units (1) place. */
  function GlyphFor(value: int, place: nat): (g: Glyph)
    requires place < 2
    ensures GlyphShape(g)
  {
    GlyphShapes();
    if 0 <= value <= 99 then FONT[if place == 0 then value / 10 else value % 10] else OVERFLOW
  }

  predicate CellLit(g: Glyph, row: int, column: int)
    requires GlyphShape(g)
  {
    0 <= row < 5 && 0 <= column < 3 && g[row][column] == '#'
  }

  /** Is pixel k lit by a two-digit number whose top row is y? */
  predicate NumberLit(value: int, y: nat, k: nat) {
    var row, column := k / WIDTH - y, k % WIDTH;
    CellLit(GlyphFor(value, 0), row, column - 1) || CellLit(GlyphFor(value, 1), row, column - 5)
  }

  function Dark(): Canvas {
    seq(PIXELS, _ => 0)
  }

  function DrawNumber(c: Canvas, y: nat, value: int, intensity: byte): Canvas {
    seq(PIXELS, k requires 0 <= k < PIXELS => if NumberLit(value, y, k) then intensity else c[k])
  }

  /** `value as i32`: towards zero, saturating. */
  function Truncated(v: real): int {
    var t := if v >= 0.0 then v.Floor else -((-v).Floor);
    if t > 0x7fff_ffff then 0x7fff_ffff else if t < -0x8000_0000 then -0x8000_0000 else t
  }

  // -------------------------------------------------------------------- gauges

  /** Rows y0..y1 and columns x0..x1, all inclusive. */
  datatype Rect = Rect(y0: nat, y1: nat, x0: nat, x1: nat) {
    predicate Fits() {
      y0 <= y1 < HEIGHT && x0 <= x1 < WIDTH
    }
    predicate Contains(k: nat) {
      y0 <= k / WIDTH <= y1 && x0 <= k % WIDTH <= x1
    }
    function Rows(): nat {
      if y1 < y0 then 0 else y1 - y0 + 1
    }
  }

  function Clamp(v: real): (r: real)
    ensures 0.0 <= r <= 1.0
  {
    if v < 0.0 then 0.0 else if v > 1.0 then 1.0 else v
  }

  /** Level of the row `offset` rows from the gauge's foot. */
  function GaugeLevel(rows: nat, value: real, intensity: byte, offset: int): (level: byte)
    ensures level <= intensity
  {
    Dimmed(intensity, Clamp(Share(Clamp(value / 100.0), rows as real) - offset as real))
  }

  function GaugeOffset(rect: Rect, reversed: bool, row: int): int {
    if reversed then row - rect.y0 else rect.y1 - row
  }

  function DrawGauge(c: Canvas, rect: Rect, value: real, intensity: byte, reversed: bool): Canvas {
    seq(PIXELS, k requires 0 <= k < PIXELS =>
      if rect.Contains(k)
      then GaugeLevel(rect.Rows(), value, intensity, GaugeOffset(rect, reversed, k / WIDTH))
      else c[k])
  }

  function GaugeRect(t: Template, index: nat): Rect {
    match t
    case ClockGauge => Rect(13, 33, 3, 5)
    case NumberTwoGauges => if index == 1 then Rect(7, 33, 1, 2) else Rect(7, 33, 6, 7)
    case FullGauge => Rect(0, 33, 3, 5)
  }

  // --------------------------------------------------------------------- slots

  /** What a slot puts on the panel. */
  datatype Ink =
    | Nothing
    | ClockInk(hour: byte, minute: byte, intensity: byte, hideZero: bool)
    | NumberInk(number: int, intensity: byte)
    | GaugeInk(value: real, intensity: byte, reversed: bool)

  function BaseIntensity(r: Readings, w: Widget): byte {
    if w.intensity.Some? then w.intensity.value
    else if w.source.Time? then r.defaultClockIntensity else DATA
  }

  predicate Emphasised(r: Readings, w: Widget, value: real) {
    || (w.source.Context? && SessionOf(r, w).Some? && SessionOf(r, w).value.busy)
    || (w.warningThreshold.Some?
        && (if w.source.Battery? then value <= w.warningThreshold.value as real
            else value >= w.warningThreshold.value as real))
  }

  function Intensity(r: Readings, w: Widget, value: real): byte {
    if Emphasised(r, w, value) then 255 else BaseIntensity(r, w)
  }

  function InkOf(p: PanelLayout, r: Readings, index: nat): Ink {
    if index >= |p.slots| || p.slots[index].None? then Nothing
    else
      var w := p.slots[index].value;
      if index >= |Presentations(p.template)| || Presentations(p.template)[index] != w.presentation then Nothing
      else if w.presentation.Clock? then
        ClockInk(r.hour, r.minute, BaseIntensity(r, w), w.hideLeadingHourZero && r.hour < 10)
      else
        var v := Value(r, w);
        if v.None? then Nothing
        else if w.presentation.Number? then NumberInk(Truncated(v.value), Intensity(r, w, v.value))
        else GaugeInk(v.value, Intensity(r, w, v.value), w.reversed)
  }

  const HOUR_ZERO := Rect(1, 5, 1, 3)

  function Erase(c: Canvas, rect: Rect): Canvas {
    seq(PIXELS, k requires 0 <= k < PIXELS => if rect.Contains(k) then 0 else c[k])
  }

  function DrawInk(c: Canvas, t: Template, index: nat, ink: Ink): Canvas {
    match ink
    case Nothing => c
    case ClockInk(hour, minute, intensity, hideZero) =>
      var drawn := DrawNumber(DrawNumber(c, 1, hour, intensity), 7, minute, intensity);
      if hideZero then Erase(drawn, HOUR_ZERO) else drawn
    case NumberInk(number, intensity) => DrawNumber(c, 1, number, intensity)
    case GaugeInk(value, intensity, reversed) => DrawGauge(c, GaugeRect(t, index), value, intensity, reversed)
  }

  function RenderSlots(p: PanelLayout, r: Readings, n: nat): Canvas {
    if n == 0 then Dark() else DrawInk(RenderSlots(p, r, n - 1), p.template, n - 1, InkOf(p, r, n - 1))
  }

  function Render(p: PanelLayout, r: Readings): Canvas {
    RenderSlots(p, r, |p.slots|)
  }

  function Effective(global: Brightness, p: PanelLayout): Brightness {
    if p.brightnessOverride.Some? then p.brightnessOverride.value else global
  }

  function RenderConfigured(p: PanelLayout, r: Readings, global: Brightness): Canvas {
    if Effective(global, p).Level().None? then Dark() else Render(p, r)
  }

  // ---------------------------------------------------------- the drawing loops

  /** Stamps one glyph into the pixels, cell by cell. */
  method StampGlyph(pixels: array<byte>, x: nat, y: nat, glyph: Glyph, intensity: byte)
    requires pixels.Length == PIXELS && GlyphShape(glyph) && y + 5 <= HEIGHT && x + 3 <= WIDTH
    modifies pixels
    ensures forall k :: 0 <= k < PIXELS ==>
      pixels[k] == if CellLit(glyph, k / WIDTH - y, k % WIDTH - x) then intensity else old(pixels[k])
  {
    for dy := 0 to 5
      invariant forall k :: 0 <= k < PIXELS ==>
        pixels[k] == if k / WIDTH - y < dy && CellLit(glyph, k / WIDTH - y, k % WIDTH - x)
          then intensity else old(pixels[k])
    {
      for dx := 0 to 3
        invariant forall k :: 0 <= k < PIXELS ==>
          pixels[k] == if (k / WIDTH - y < dy || (k / WIDTH - y == dy && k % WIDTH - x < dx))
              && CellLit(glyph, k / WIDTH - y, k % WIDTH - x)
            then intensity else old(pixels[k])
      {
        if glyph[dy][dx] == '#' {
          pixels[(y + dy) * WIDTH + x + dx] := intensity;
        }
      }
    }
  }

  /** Stamps the tens and the units, or the overflow sign twice. */
  method StampNumber(pixels: array<byte>, y: nat, value: int, intensity: byte)
    requires pixels.Length == PIXELS && y + 5 <= HEIGHT
    modifies pixels
    ensures pixels[..] == DrawNumber(old(pixels[..]), y, value, intensity)
  {
    StampGlyph(pixels, 1, y, GlyphFor(value, 0), intensity);
    StampGlyph(pixels, 5, y, GlyphFor(value, 1), intensity);
  }

  method EraseHourZero(pixels: array<byte>)
    requires pixels.Length == PIXELS
    modifies pixels
    ensures pixels[..] == Erase(old(pixels[..]), HOUR_ZERO)
  {
    ghost var before := pixels[..];
    for y := 1 to 6
      invariant forall k :: 0 <= k < PIXELS ==>
        pixels[k] == if HOUR_ZERO.Contains(k) && k / WIDTH < y then 0 else before[k]
    {
      for x := 1 to 4
        invariant forall k :: 0 <= k < PIXELS ==>
          pixels[k] == if HOUR_ZERO.Contains(k) && (k / WIDTH < y || (k / WIDTH == y && k % WIDTH < x))
            then 0 else before[k]
      {
        pixels[y * WIDTH + x] := 0;
      }
    }
  }

  method FillGauge(pixels: array<byte>, rect: Rect, value: real, intensity: byte, reversed: bool)
    requires pixels.Length == PIXELS && rect.Fits()
    modifies pixels
    ensures pixels[..] == DrawGauge(old(pixels[..]), rect, value, intensity, reversed)
  {
    ghost var before := pixels[..];
    var rows := rect.y1 - rect.y0 + 1;
    var exact := Share(Clamp(value / 100.0), rows as real);
    for offset := 0 to rows
      invariant forall k :: 0 <= k < PIXELS ==>
        pixels[k] == if rect.Contains(k) && GaugeOffset(rect, reversed, k / WIDTH) < offset
          then GaugeLevel(rows, value, intensity, GaugeOffset(rect, reversed, k / WIDTH)) else before[k]
    {
      var level := Dimmed(intensity, Clamp(exact - offset as real));
      var y := if reversed then rect.y0 + offset else rect.y1 - offset;
      for x := rect.x0 to rect.x1 + 1
        invariant forall k :: 0 <= k < PIXELS ==>
          pixels[k] == if rect.Contains(k) && (GaugeOffset(rect, reversed, k / WIDTH) < offset
              || (k / WIDTH == y && k % WIDTH < x))
            then GaugeLevel(rows, value, intensity, GaugeOffset(rect, reversed, k / WIDTH)) else before[k]
      {
        assert level == GaugeLevel(rows, value, intensity, offset);
        assert GaugeOffset(rect, reversed, y) == offset;
        pixels[y * WIDTH + x] := level;
      }
    }
  }

  /** The renderer's loop over the slots of any panel, valid or not. */
  method RenderPanel(p: PanelLayout, r: Readings) returns (frame: Frame)
    ensures frame == Frame(WIDTH, HEIGHT, Render(p, r))
  {
    var pixels := new byte[PIXELS](_ => 0);
    assert pixels[..] == Dark();
    for index := 0 to |p.slots|
      invariant pixels[..] == RenderSlots(p, r, index)
    {
      RenderSlot(pixels, p, r, index);
    }
    frame := Frame(WIDTH, HEIGHT, pixels[..]);
  }

  /** One turn of the loop: skip, draw the clock, a number or a gauge. */
  method RenderSlot(pixels: array<byte>, p: PanelLayout, r: Readings, index: nat)
    requires pixels.Length == PIXELS && index < |p.slots|
    modifies pixels
    ensures pixels[..] == DrawInk(old(pixels[..]), p.template, index, InkOf(p, r, index))
  {
    if p.slots[index].None? {
      return;
    }
    var widget := p.slots[index].value;
    var presentations := Presentations(p.template);
    if index >= |presentations| || presentations[index] != widget.presentation {
      return;
    }
    var intensity := BaseIntensity(r, widget);
    if widget.presentation == Clock {
      StampNumber(pixels, 1, r.hour, intensity);
      StampNumber(pixels, 7, r.minute, intensity);
      if widget.hideLeadingHourZero && r.hour < 10 {
        EraseHourZero(pixels);
      }
      return;
    }
    var value := Value(r, widget);
    if value.None? {
      return;
    }
    if Emphasised(r, widget, value.value) {
      intensity := 255;
    }
    if widget.presentation == Number {
      StampNumber(pixels, 1, Truncated(value.value), intensity);
      return;
    }
    FillGauge(pixels, GaugeRect(p.template, index), value.value, intensity, widget.reversed);
  }

  // ---------------------------------------------------------------- plain clock

  /** The frame of the first snapshot, drawn before any configuration is looked at. */
  function RenderClock(hour: byte, minute: byte): Option<Frame> {
    if hour > 23 || minute > 59 then None
    else Some(Frame(WIDTH, HEIGHT, DrawNumber(DrawNumber(Dark(), 1, hour, DATA), 7, minute, DATA)))
  }

  method DrawClock(hour: byte, minute: byte) returns (frame: Option<Frame>)
    ensures frame == RenderClock(hour, minute)
  {
    if hour > 23 || minute > 59 {
      return None;
    }
    var pixels := new byte[PIXELS](_ => 0);
    assert pixels[..] == Dark();
    StampNumber(pixels, 1, hour, DATA);
    StampNumber(pixels, 7, minute, DATA);
    frame := Some(Frame(WIDTH, HEIGHT, pixels[..]));
  }
}
