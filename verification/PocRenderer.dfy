/** The proof of concept's renderer, written before and apart from the daemon's. */
module PocRenderer {
  import opened Basics
  import opened Protocol
  import opened Layout

  const EMPHASIS: byte := 255

  const FONT: seq<Glyph> := [
    ["###", "#.#", "#.#", "#.#", "###"],
    [".#.", "##.", ".#.", ".#.", "###"],
    ["###", "..#", "###", "#..", "###"],
    ["###", "..#", "###", "..#", "###"],
    ["#.#", "#.#", "###", "..#", "..#"],
    ["###", "#..", "###", "..#", "###"],
    ["###", "#..", "###", "#.#", "###"],
    ["###", "..#", "..#", "..#", "..#"],
    ["###", "#.#", "###", "#.#", "###"],
    ["###", "#.#", "###", "..#", "###"]]

  const OVERFLOW: Glyph := ["#.#", "#.#", ".#.", "#.#", "#.#"]

  lemma GlyphShapes()
    ensures |FONT| == 10 && GlyphShape(OVERFLOW)
    ensures forall d :: 0 <= d < 10 ==> GlyphShape(FONT[d])
  {
  }

  /** A frame as rows of pixels, seen row-major. */
  type Grid = array2<byte>

  ghost predicate IsPanel(f: Grid) {
    f.Length0 == HEIGHT && f.Length1 == WIDTH
  }

  ghost function Pixels(f: Grid): (c: Canvas)
    requires IsPanel(f)
    reads f
  {
    seq(PIXELS, k requires 0 <= k < PIXELS reads f => f[k / WIDTH, k % WIDTH])
  }

  function Stamped(c: Canvas, x: nat, y: nat, glyph: Glyph, value: byte): Canvas
    requires GlyphShape(glyph)
  {
    seq(PIXELS, k requires 0 <= k < PIXELS => if CellLit(glyph, k / WIDTH - y, k % WIDTH - x) then value else c[k])
  }

  function TwoDigits(c: Canvas, y: nat, number: int, value: byte): Canvas {
    GlyphShapes();
    if !(0 <= number <= 99) then Stamped(Stamped(c, 1, y, OVERFLOW, value), 5, y, OVERFLOW, value)
    else Stamped(Stamped(c, 1, y, FONT[number / 10], value), 5, y, FONT[number % 10], value)
  }

  function Exact(rect: Rect, fraction: real): (e: real)
    requires rect.Fits()
    ensures 0.0 <= e <= rect.Rows() as real
  {
    Share(Clamp(fraction), rect.Rows() as real)
  }

  /** Full rows from the foot up, then one dimmer tip row, and nothing above it. */
  function Bar(c: Canvas, rect: Rect, fraction: real, value: byte): Canvas
    requires rect.Fits()
  {
    var exact := Exact(rect, fraction);
    var full := exact.Floor;
    var tip := exact - full as real;
    seq(PIXELS, k requires 0 <= k < PIXELS =>
      if rect.Contains(k) && rect.y1 - k / WIDTH < full then value
      else if rect.Contains(k) && tip > 0.0 && full < rect.Rows() && k / WIDTH == rect.y1 - full
        then TipLevel(value, tip)
      else c[k])
  }

  function TipLevel(value: byte, tip: real): (level: byte)
    requires 0.0 <= tip < 1.0
    ensures level <= value
  {
    Dimmed(value, tip)
  }

  method Stamp(frame: Grid, x: nat, y: nat, glyph: Glyph, value: byte)
    requires IsPanel(frame) && GlyphShape(glyph) && x + 3 <= WIDTH && y + 5 <= HEIGHT
    modifies frame
    ensures Pixels(frame) == Stamped(old(Pixels(frame)), x, y, glyph, value)
  {
    for dy := 0 to 5
      invariant forall r, c :: 0 <= r < HEIGHT && 0 <= c < WIDTH ==>
        frame[r, c] == if r - y < dy && CellLit(glyph, r - y, c - x) then value else old(frame[r, c])
    {
      for dx := 0 to 3
        invariant forall r, c :: 0 <= r < HEIGHT && 0 <= c < WIDTH ==>
          frame[r, c] == if (r - y < dy || (r - y == dy && c - x < dx)) && CellLit(glyph, r - y, c - x)
            then value else old(frame[r, c])
      {
        if glyph[dy][dx] == '#' {
          frame[y + dy, x + dx] := value;
        }
      }
    }
  }

  method DrawTwoDigits(frame: Grid, y: nat, number: int, value: byte)
    requires IsPanel(frame) && y + 5 <= HEIGHT
    modifies frame
    ensures Pixels(frame) == TwoDigits(old(Pixels(frame)), y, number, value)
  {
    GlyphShapes();
    if !(0 <= number <= 99) {
      Stamp(frame, 1, y, OVERFLOW, value);
      Stamp(frame, 5, y, OVERFLOW, value);
      return;
    }
    Stamp(frame, 1, y, FONT[number / 10], value);
    Stamp(frame, 5, y, FONT[number % 10], value);
  }

  method DrawBar(frame: Grid, rect: Rect, fraction: real, value: byte)
    requires IsPanel(frame) && rect.Fits()
    modifies frame
    ensures Pixels(frame) == Bar(old(Pixels(frame)), rect, fraction, value)
  {
    var rows := rect.y1 - rect.y0 + 1;
    var exact := Share(Clamp(fraction), rows as real);
    var full := exact.Floor;
    var tip := exact - full as real;
    for i := 0 to full
      invariant forall r, c :: 0 <= r < HEIGHT && 0 <= c < WIDTH ==>
        frame[r, c] == if rect.y1 - i < r <= rect.y1 && rect.x0 <= c <= rect.x1 then value else old(frame[r, c])
    {
      FillRow(frame, rect.y1 - i, rect.x0, rect.x1, value);
    }
    if tip > 0.0 && full < rows {
      FillRow(frame, rect.y1 - full, rect.x0, rect.x1, TipLevel(value, tip));
    }
  }

  method FillRow(frame: Grid, y: nat, x0: nat, x1: nat, value: byte)
    requires IsPanel(frame) && y < HEIGHT && x0 <= x1 < WIDTH
    modifies frame
    ensures forall r, c :: 0 <= r < HEIGHT && 0 <= c < WIDTH ==>
      frame[r, c] == if r == y && x0 <= c <= x1 then value else old(frame[r, c])
  {
    for x := x0 to x1 + 1
      invariant forall r, c :: 0 <= r < HEIGHT && 0 <= c < WIDTH ==>
        frame[r, c] == if r == y && x0 <= c < x then value else old(frame[r, c])
    {
      frame[y, x] := value;
    }
  }

  // -------------------------------------------------------------------- panels

  const BATTERY := Rect(13, 33, 3, 5)
  const FIVE_HOUR := Rect(7, 33, 1, 2)
  const SEVEN_DAY := Rect(7, 33, 6, 7)

  datatype MachineState = MachineState(hour: int, minute: int, batteryPct: real)

  datatype ClaudeState = ClaudeState(
    fiveHourPct: Option<real>, sevenDayPct: Option<real>, contextPct: Option<real>, working: bool,
    fiveHourSeverity: string, sevenDaySeverity: string)

  function Machine(s: MachineState): Canvas {
    Bar(TwoDigits(TwoDigits(Dark(), 1, s.hour, DATA), 7, s.minute, DATA), BATTERY, s.batteryPct / 100.0, DATA)
  }

  function SeverityLevel(severity: string): byte {
    if severity == "normal" then DATA else EMPHASIS
  }

  function MaybeBar(c: Canvas, rect: Rect, percent: Option<real>, severity: string): Canvas
    requires rect.Fits()
  {
    if percent.None? then c else Bar(c, rect, percent.value / 100.0, SeverityLevel(severity))
  }

  /** Python's `int`: towards zero. */
  function Int(v: real): int {
    if v >= 0.0 then v.Floor else -((-v).Floor)
  }

  function Claude(s: ClaudeState): Canvas {
    var bars := MaybeBar(MaybeBar(Dark(), FIVE_HOUR, s.fiveHourPct, s.fiveHourSeverity),
                         SEVEN_DAY, s.sevenDayPct, s.sevenDaySeverity);
    if s.contextPct.None? then bars
    else TwoDigits(bars, 1, Int(s.contextPct.value), if s.working then EMPHASIS else DATA)
  }

  method NewFrame() returns (frame: Grid)
    ensures IsPanel(frame) && fresh(frame) && Pixels(frame) == Dark()
  {
    frame := new byte[HEIGHT, WIDTH]((_, _) => 0);
  }

  method RenderMachine(s: MachineState) returns (frame: Grid)
    ensures IsPanel(frame) && fresh(frame) && Pixels(frame) == Machine(s)
  {
    frame := NewFrame();
    DrawTwoDigits(frame, 1, s.hour, DATA);
    DrawTwoDigits(frame, 7, s.minute, DATA);
    DrawBar(frame, BATTERY, s.batteryPct / 100.0, DATA);
  }

  method RenderClaude(s: ClaudeState) returns (frame: Grid)
    ensures IsPanel(frame) && fresh(frame) && Pixels(frame) == Claude(s)
  {
    frame := NewFrame();
    if s.fiveHourPct.Some? {
      DrawBar(frame, FIVE_HOUR, s.fiveHourPct.value / 100.0, SeverityLevel(s.fiveHourSeverity));
    }
    if s.sevenDayPct.Some? {
      DrawBar(frame, SEVEN_DAY, s.sevenDayPct.value / 100.0, SeverityLevel(s.sevenDaySeverity));
    }
    if s.contextPct.Some? {
      DrawTwoDigits(frame, 1, Int(s.contextPct.value), if s.working then EMPHASIS else DATA);
    }
  }
}
