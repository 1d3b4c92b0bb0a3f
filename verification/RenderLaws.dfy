/** What both renderers promise: they agree, gauges add up, slots do not interfere. */
module RenderLaws {
  import opened Basics
  import opened Protocol
  import opened Assistant
  import opened Layout
  import Poc = PocRenderer

  // ------------------------------------------------------------ gauge arithmetic

  /** Level of a proof-of-concept bar, `offset` rows from its foot, on dark ground. */
  function BarLevel(rect: Rect, fraction: real, value: byte, offset: int): byte
    requires rect.Fits()
  {
    var exact := Poc.Exact(rect, fraction);
    var full := exact.Floor;
    var tip := exact - full as real;
    if offset < full then value
    else if offset == full && tip > 0.0 && full < rect.Rows() then Poc.TipLevel(value, tip)
    else 0
  }

  /** One row's share of an exact height, by its place below, at or above the tip. */
  lemma RowLevel(exact: real, value: byte, offset: int)
    ensures var level := Dimmed(value, Clamp(exact - offset as real));
      && (offset < exact.Floor ==> level == value)
      && (offset == exact.Floor ==> level == Dimmed(value, exact - offset as real))
      && (offset > exact.Floor ==> level == 0)
  {
    var c := Clamp(exact - offset as real);
    if offset < exact.Floor {
      assert c == 1.0;
    } else if offset > exact.Floor {
      assert c == 0.0;
    } else {
      assert c == exact - offset as real;
    }
  }

  /** Clamping row by row and splitting into full rows and a tip give the same levels. */
  lemma LevelsAgree(rect: Rect, percent: real, value: byte, offset: int)
    requires rect.Fits() && 0 <= offset < rect.Rows()
    ensures GaugeLevel(rect.Rows(), percent, value, offset) == BarLevel(rect, percent / 100.0, value, offset)
  {
    var exact := Poc.Exact(rect, percent / 100.0);
    RowLevel(exact, value, offset);
    NoTip(value);
  }

  lemma NoTip(value: byte)
    ensures Dimmed(value, 0.0) == 0
  {
  }

  function ColumnSum(rows: nat, percent: real, intensity: byte, n: nat): nat {
    if n == 0 then 0 else ColumnSum(rows, percent, intensity, n - 1) + GaugeLevel(rows, percent, intensity, n - 1)
  }

  /** The height a partial column of an exact height reaches. */
  function Reached(exact: real, intensity: byte, n: nat): int {
    if n <= exact.Floor then intensity * n else (intensity as real * exact).Floor
  }

  lemma NextRow(exact: real, intensity: byte, n: nat)
    requires exact >= 0.0
    ensures Reached(exact, intensity, n + 1)
         == Reached(exact, intensity, n) + Dimmed(intensity, Clamp(exact - n as real))
  {
    RowLevel(exact, intensity, n);
    if n + 1 <= exact.Floor {
      Distribute(intensity, n);
    } else if n == exact.Floor {
      SplitFloor(intensity, n, exact);
    }
  }

  lemma {:induction false} PartialSum(rows: nat, percent: real, intensity: byte, n: nat)
    ensures ColumnSum(rows, percent, intensity, n)
         == Reached(Share(Clamp(percent / 100.0), rows as real), intensity, n)
  {
    if n > 0 {
      PartialSum(rows, percent, intensity, n - 1);
      NextRow(Share(Clamp(percent / 100.0), rows as real), intensity, n - 1);
    }
  }

  lemma Distribute(a: int, n: int)
    ensures a * (n + 1) == a * n + a
  {
  }

  lemma SplitFloor(intensity: byte, m: nat, exact: real)
    requires m as real <= exact < (m + 1) as real
    ensures (intensity as real * exact).Floor
         == intensity * m + Dimmed(intensity, exact - m as real)
  {
    var whole := intensity * m;
    assert intensity as real * exact == whole as real + intensity as real * (exact - m as real);
  }

  /** All the light a gauge of so many rows puts into each column. */
  function Light(rows: nat, percent: real, intensity: byte): int {
    (intensity as real * (Share(Clamp(percent / 100.0), rows as real))).Floor
  }

  lemma LevelSum(rows: nat, percent: real, intensity: byte)
    ensures ColumnSum(rows, percent, intensity, rows) == Light(rows, percent, intensity)
  {
    PartialSum(rows, percent, intensity, rows);
    var exact := Share(Clamp(percent / 100.0), rows as real);
    if rows <= exact.Floor {
      assert exact == rows as real;
      assert intensity as real * exact == (intensity * rows) as real;
    }
  }

  /** The light of some pixels together. */
  function Total(s: seq<byte>): nat {
    if s == [] then 0 else s[0] + Total(s[1..])
  }

  lemma {:induction false} TotalAppend(s: seq<byte>, last: byte)
    ensures Total(s + [last]) == Total(s) + last
  {
    if s == [] {
      assert Total([last]) == last;
    } else {
      TotalAppend(s[1..], last);
      assert (s + [last])[1..] == s[1..] + [last];
    }
  }

  /** The first n levels from a gauge's foot, foot first or foot last. */
  function Levels(rows: nat, percent: real, intensity: byte, n: nat, footFirst: bool): seq<byte> {
    seq(n, i requires 0 <= i < n => GaugeLevel(rows, percent, intensity, if footFirst then i else n - 1 - i))
  }

  lemma NextLevel(rows: nat, percent: real, intensity: byte, n: nat)
    ensures Levels(rows, percent, intensity, n + 1, true)
         == Levels(rows, percent, intensity, n, true) + [GaugeLevel(rows, percent, intensity, n)]
    ensures Levels(rows, percent, intensity, n + 1, false)
         == [GaugeLevel(rows, percent, intensity, n)] + Levels(rows, percent, intensity, n, false)
  {
  }

  lemma TotalPrepend(first: byte, s: seq<byte>)
    ensures Total([first] + s) == first + Total(s)
  {
    assert ([first] + s)[1..] == s;
  }

  lemma {:induction false} LevelsTotal(rows: nat, percent: real, intensity: byte, n: nat, footFirst: bool)
    ensures Total(Levels(rows, percent, intensity, n, footFirst)) == ColumnSum(rows, percent, intensity, n)
  {
    if n > 0 {
      var but := Levels(rows, percent, intensity, n - 1, footFirst);
      LevelsTotal(rows, percent, intensity, n - 1, footFirst);
      NextLevel(rows, percent, intensity, n - 1);
      if footFirst {
        TotalAppend(but, GaugeLevel(rows, percent, intensity, n - 1));
      } else {
        TotalPrepend(GaugeLevel(rows, percent, intensity, n - 1), but);
      }
    }
  }

  /** One column of a rectangle, from the top. */
  function ColumnOf(c: Canvas, rect: Rect, column: nat): (s: seq<byte>)
    requires rect.Fits() && rect.x0 <= column <= rect.x1
  {
    seq(rect.Rows(), i requires 0 <= i < rect.Rows() => c[(rect.y0 + i) * WIDTH + column])
  }

  lemma PixelAt(row: nat, column: nat)
    requires column < WIDTH
    ensures (row * WIDTH + column) / WIDTH == row && (row * WIDTH + column) % WIDTH == column
  {
  }

  lemma DrawnRow(c: Canvas, rect: Rect, percent: real, intensity: byte, reversed: bool, row: nat, column: nat)
    requires rect.Fits() && rect.y0 <= row <= rect.y1 && rect.x0 <= column <= rect.x1
    ensures DrawGauge(c, rect, percent, intensity, reversed)[row * WIDTH + column]
         == GaugeLevel(rect.Rows(), percent, intensity, GaugeOffset(rect, reversed, row))
  {
    PixelAt(row, column);
  }

  lemma LevelAt(rows: nat, percent: real, intensity: byte, n: nat, footFirst: bool, i: nat, offset: int)
    requires i < n && offset == if footFirst then i else n - 1 - i
    ensures Levels(rows, percent, intensity, n, footFirst)[i] == GaugeLevel(rows, percent, intensity, offset)
  {
  }

  lemma DrawnCell(c: Canvas, rect: Rect, percent: real, intensity: byte, reversed: bool, column: nat, i: nat)
    requires rect.Fits() && rect.x0 <= column <= rect.x1 && i < rect.Rows()
    ensures DrawGauge(c, rect, percent, intensity, reversed)[(rect.y0 + i) * WIDTH + column]
         == Levels(rect.Rows(), percent, intensity, rect.Rows(), reversed)[i]
  {
    DrawnRow(c, rect, percent, intensity, reversed, rect.y0 + i, column);
    LevelAt(rect.Rows(), percent, intensity, rect.Rows(), reversed, i, GaugeOffset(rect, reversed, rect.y0 + i));
  }

  lemma SameColumn(c: Canvas, rect: Rect, column: nat, levels: seq<byte>)
    requires rect.Fits() && rect.x0 <= column <= rect.x1 && |levels| == rect.Rows()
    requires forall i :: 0 <= i < |levels| ==> c[(rect.y0 + i) * WIDTH + column] == levels[i]
    ensures ColumnOf(c, rect, column) == levels
  {
  }

  lemma DrawnColumn(c: Canvas, rect: Rect, percent: real, intensity: byte, reversed: bool, column: nat)
    requires rect.Fits() && rect.x0 <= column <= rect.x1
    ensures ColumnOf(DrawGauge(c, rect, percent, intensity, reversed), rect, column)
         == Levels(rect.Rows(), percent, intensity, rect.Rows(), reversed)
  {
    var drawn := DrawGauge(c, rect, percent, intensity, reversed);
    var levels := Levels(rect.Rows(), percent, intensity, rect.Rows(), reversed);
    forall i | 0 <= i < |levels| ensures drawn[(rect.y0 + i) * WIDTH + column] == levels[i] {
      DrawnCell(c, rect, percent, intensity, reversed, column, i);
    }
    SameColumn(drawn, rect, column, levels);
  }

  lemma DrawnTotal(c: Canvas, rect: Rect, percent: real, intensity: byte, reversed: bool, column: nat)
    requires rect.Fits() && rect.x0 <= column <= rect.x1
    ensures Total(ColumnOf(DrawGauge(c, rect, percent, intensity, reversed), rect, column))
         == ColumnSum(rect.Rows(), percent, intensity, rect.Rows())
  {
    DrawnColumn(c, rect, percent, intensity, reversed, column);
    LevelsTotal(rect.Rows(), percent, intensity, rect.Rows(), reversed);
  }

  /**
   The pixels of each column of a drawn gauge, upright or reversed, add up to exactly
   floor(intensity * rows * clamp(value / 100)).
   */
  lemma GaugeColumnSum(c: Canvas, rect: Rect, percent: real, intensity: byte, reversed: bool, column: nat)
    requires rect.Fits() && rect.x0 <= column <= rect.x1
    ensures Total(ColumnOf(DrawGauge(c, rect, percent, intensity, reversed), rect, column))
         == Light(rect.Rows(), percent, intensity)
  {
    DrawnTotal(c, rect, percent, intensity, reversed, column);
    LevelSum(rect.Rows(), percent, intensity);
  }

  /** Row `row` of the reversed gauge is row y0 + y1 - row of the upright one. */
  lemma ReversedIsMirrored(c: Canvas, rect: Rect, percent: real, intensity: byte, row: nat, column: nat)
    requires rect.Fits() && rect.y0 <= row <= rect.y1 && rect.x0 <= column <= rect.x1
    ensures DrawGauge(c, rect, percent, intensity, true)[row * WIDTH + column]
         == DrawGauge(c, rect, percent, intensity, false)[(rect.y0 + rect.y1 - row) * WIDTH + column]
  {
    DrawnRow(c, rect, percent, intensity, true, row, column);
    DrawnRow(c, rect, percent, intensity, false, rect.y0 + rect.y1 - row, column);
  }

  lemma ClampGrows(a: real, b: real)
    requires a <= b
    ensures Clamp(a) <= Clamp(b)
  {
  }

  lemma ShareGrows(a: real, b: real, whole: real)
    requires 0.0 <= a <= b <= 1.0 && whole >= 0.0
    ensures Share(a, whole) <= Share(b, whole)
  {
    var x, y := whole * a, whole * b;
    Product(whole, whole, a, b);
    assert x <= y;
    assert Share(a, whole) == x && Share(b, whole) == y;
  }

  lemma DimmedGrows(low: byte, high: byte, a: real, b: real)
    requires low <= high && 0.0 <= a <= b <= 1.0
    ensures Dimmed(low, a) <= Dimmed(high, b)
  {
    Product(low as real, high as real, a, b);
  }

  lemma LevelGrows(rows: nat, a: real, b: real, low: byte, high: byte, offset: int)
    requires a <= b && low <= high
    ensures GaugeLevel(rows, a, low, offset) <= GaugeLevel(rows, b, high, offset)
  {
    ClampGrows(a / 100.0, b / 100.0);
    ShareGrows(Clamp(a / 100.0), Clamp(b / 100.0), rows as real);
    var ea, eb := Share(Clamp(a / 100.0), rows as real), Share(Clamp(b / 100.0), rows as real);
    ClampGrows(ea - offset as real, eb - offset as real);
    DimmedGrows(low, high, Clamp(ea - offset as real), Clamp(eb - offset as real));
  }

  lemma Product(a: real, b: real, c: real, d: real)
    requires 0.0 <= a <= b && 0.0 <= c <= d
    ensures a * c <= b * d
  {
    assert a * c <= b * c;
    assert b * c <= b * d;
  }

  /**
   Except for the battery, a gauge never loses light anywhere when its reading
   grows, not even across its warning threshold.
   */
  lemma GaugeGrowsWithReading(r: Readings, w: Widget, c: Canvas, rect: Rect, a: real, b: real, k: nat)
    requires !w.source.Battery? && a <= b && k < PIXELS && rect.Fits()
    ensures DrawGauge(c, rect, a, Intensity(r, w, a), w.reversed)[k]
         <= DrawGauge(c, rect, b, Intensity(r, w, b), w.reversed)[k]
  {
    LevelGrows(rect.Rows(), a, b, Intensity(r, w, a), Intensity(r, w, b), GaugeOffset(rect, w.reversed, k / WIDTH));
  }

  // ------------------------------------------------------- the renderers agree

  lemma FontsAgree()
    ensures FONT == Poc.FONT && OVERFLOW == Poc.OVERFLOW
  {
  }

  lemma NumbersAgree(c: Canvas, y: nat, number: int, value: byte)
    ensures Poc.TwoDigits(c, y, number, value) == DrawNumber(c, y, number, value)
  {
    FontsAgree();
    Poc.GlyphShapes();
  }

  /** On pixels that are still dark in its rectangle, a bar is a gauge. */
  lemma BarsAgree(c: Canvas, rect: Rect, percent: real, value: byte)
    requires rect.Fits() && forall k :: 0 <= k < PIXELS && rect.Contains(k) ==> c[k] == 0
    ensures Poc.Bar(c, rect, percent / 100.0, value) == DrawGauge(c, rect, percent, value, false)
  {
    forall k | 0 <= k < PIXELS
      ensures Poc.Bar(c, rect, percent / 100.0, value)[k] == DrawGauge(c, rect, percent, value, false)[k]
    {
      if rect.Contains(k) {
        LevelsAgree(rect, percent, value, rect.y1 - k / WIDTH);
      }
    }
  }

  lemma EmptyBar(c: Canvas, rect: Rect, value: byte)
    requires rect.Fits()
    ensures Poc.Bar(c, rect, 0.0 / 100.0, value) == c
  {
    assert Poc.Exact(rect, 0.0 / 100.0) == 0.0;
  }

  lemma NumberStaysOut(c: Canvas, y: nat, number: int, value: byte, k: nat)
    requires k < PIXELS && (k / WIDTH < y || k / WIDTH > y + 4)
    ensures DrawNumber(c, y, number, value)[k] == c[k]
  {
  }

  function BatteryOf(r: Readings): real {
    if r.battery.Some? && r.battery.value.Finite? then r.battery.value.value else 0.0
  }

  /**
   The default left panel is the proof of concept's machine panel, pixel for pixel,
   for every time and battery reading; a missing reading is its reading zero.
   */
  lemma MachinePanelsAgree(r: Readings)
    requires r.defaultClockIntensity == DATA
    ensures Render(DefaultPanels()[0], r) == Poc.Machine(Poc.MachineState(r.hour, r.minute, BatteryOf(r)))
  {
    var p := DefaultPanels()[0];
    var clock := DrawNumber(DrawNumber(Dark(), 1, r.hour, DATA), 7, r.minute, DATA);
    assert InkOf(p, r, 0) == ClockInk(r.hour, r.minute, DATA, false);
    assert RenderSlots(p, r, 1) == clock by { assert RenderSlots(p, r, 0) == Dark(); }
    NumbersAgree(Dark(), 1, r.hour, DATA);
    NumbersAgree(DrawNumber(Dark(), 1, r.hour, DATA), 7, r.minute, DATA);
    assert Render(p, r) == DrawInk(clock, p.template, 1, InkOf(p, r, 1));
    forall k | 0 <= k < PIXELS && Poc.BATTERY.Contains(k) ensures clock[k] == 0 {
      NumberStaysOut(Dark(), 1, r.hour, DATA, k);
      NumberStaysOut(DrawNumber(Dark(), 1, r.hour, DATA), 7, r.minute, DATA, k);
    }
    if r.battery.Some? && r.battery.value.Finite? {
      assert InkOf(p, r, 1) == GaugeInk(BatteryOf(r), DATA, false);
      BarsAgree(clock, Poc.BATTERY, BatteryOf(r), DATA);
    } else {
      assert InkOf(p, r, 1) == Nothing;
      EmptyBar(clock, Poc.BATTERY, DATA);
    }
  }

  function FiniteOf(reading: Option<Float>): Option<real> {
    if reading.Some? && reading.value.Finite? then Some(reading.value.value) else None
  }

  /** Without a battery reading the default left panel is the plain clock. */
  lemma PlainClockIsLeftPanel(r: Readings)
    requires r.defaultClockIntensity == DATA && r.hour < 24 && r.minute < 60
    requires r.battery.None? || r.battery.value.NotFinite?
    ensures RenderClock(r.hour, r.minute) == Some(Frame(WIDTH, HEIGHT, Render(DefaultPanels()[0], r)))
  {
    var p := DefaultPanels()[0];
    assert InkOf(p, r, 1).Nothing?;
    assert RenderSlots(p, r, 1) == RenderSlots(p, r, 2);
    assert RenderSlots(p, r, 1) == DrawInk(Dark(), p.template, 0, InkOf(p, r, 0));
  }

  /** The percentage a session reports, as a reading. */
  function PercentOf(s: Option<Session>): Option<real> {
    if s.Some? && s.value.contextPercent.Some? then Some(s.value.contextPercent.value as real) else None
  }

  /** A widget that follows the session at `i` shows what that session says, unless a reading is given. */
  lemma ValueOfFollowed(r: Readings, w: Widget, i: nat)
    requires IsLastGreatest(r.sessions, w.provider, w.sessionId, i)
    ensures w.source.Context? ==>
      Value(r, w) == if r.context.Some? then FiniteOf(r.context)
                     else if r.sessions[i].contextPercent.Some? then Some(r.sessions[i].contextPercent.value as real)
                     else None
    ensures w.source.Activity? ==>
      Value(r, w) == if r.activity.Some? then FiniteOf(r.activity)
                     else if r.sessions[i].busy then Some(100.0) else Some(0.0)
  {
    SelectedIsLastGreatest(r.sessions, w.provider, w.sessionId, i);
  }

  /** A widget that follows no session shows nothing but a reading that is given. */
  lemma ValueOfUnfollowed(r: Readings, w: Widget)
    requires forall s :: s in r.sessions ==> !Eligible(s, w.provider, w.sessionId)
    ensures w.source.Context? ==> Value(r, w) == FiniteOf(r.context)
    ensures w.source.Activity? ==> Value(r, w) == FiniteOf(r.activity)
  {
    SelectedIsGreatest(r.sessions, w.provider, w.sessionId);
  }

  /** The other sources show their own reading if it is there and finite; the time is no reading. */
  lemma ValueOfReading(r: Readings, w: Widget)
    ensures w.source.Time? ==> Value(r, w) == None
    ensures w.source.Battery? ==> Value(r, w) == FiniteOf(r.battery)
    ensures w.source.FiveHour? ==> Value(r, w) == FiniteOf(r.fiveHour)
    ensures w.source.Weekly? ==> Value(r, w) == FiniteOf(r.weekly)
  {
  }

  /** The proof of concept's state for these readings and the session selected for Claude. */
  function StateOf(r: Readings): Poc.ClaudeState {
    var s := Selected(r.sessions, Claude, None);
    Poc.ClaudeState(FiniteOf(r.fiveHour), FiniteOf(r.weekly),
                    if r.context.Some? then FiniteOf(r.context) else PercentOf(s),
                    s.Some? && s.value.busy, "normal", "normal")
  }

  function Gauged(c: Canvas, rect: Rect, percent: Option<real>): Canvas {
    if percent.None? then c else DrawGauge(c, rect, percent.value, DATA, false)
  }

  function Numbered(c: Canvas, s: Poc.ClaudeState): Canvas {
    if s.contextPct.None? then c
    else DrawNumber(c, 1, Truncated(s.contextPct.value), if s.working then 255 else DATA)
  }

  lemma ContextInk(r: Readings)
    ensures var s := StateOf(r);
      InkOf(DefaultPanels()[1], r, 0)
      == if s.contextPct.None? then Nothing
         else NumberInk(Truncated(s.contextPct.value), if s.working then 255 else DATA)
  {
  }

  lemma QuotaInk(r: Readings)
    ensures var s := StateOf(r);
      InkOf(DefaultPanels()[1], r, 1)
      == if s.fiveHourPct.None? then Nothing else GaugeInk(s.fiveHourPct.value, DATA, false)
    ensures var s := StateOf(r);
      InkOf(DefaultPanels()[1], r, 2)
      == if s.sevenDayPct.None? then Nothing else GaugeInk(s.sevenDayPct.value, DATA, false)
  {
  }

  lemma RightPanelInOrder(r: Readings)
    ensures var s := StateOf(r);
      Render(DefaultPanels()[1], r)
      == Gauged(Gauged(Numbered(Dark(), s), Poc.FIVE_HOUR, s.fiveHourPct), Poc.SEVEN_DAY, s.sevenDayPct)
  {
    var p := DefaultPanels()[1];
    assert |p.slots| == 3 && p.template.NumberTwoGauges?;
    var s := StateOf(r);
    ContextInk(r);
    QuotaInk(r);
    assert RenderSlots(p, r, 0) == Dark();
    assert RenderSlots(p, r, 1) == Numbered(Dark(), s);
    assert RenderSlots(p, r, 2) == Gauged(RenderSlots(p, r, 1), Poc.FIVE_HOUR, s.fiveHourPct);
    assert RenderSlots(p, r, 3) == Gauged(RenderSlots(p, r, 2), Poc.SEVEN_DAY, s.sevenDayPct);
  }

  lemma TruncationsAgree(c: Canvas, v: real, value: byte)
    ensures DrawNumber(c, 1, Truncated(v), value) == DrawNumber(c, 1, Poc.Int(v), value)
  {
    assert GlyphFor(Truncated(v), 0) == GlyphFor(Poc.Int(v), 0);
    assert GlyphFor(Truncated(v), 1) == GlyphFor(Poc.Int(v), 1);
  }

  /** A number above row 7 and a gauge from row 7 down may be drawn in either order. */
  lemma NumberAndGaugeCommute(c: Canvas, s: Poc.ClaudeState, rect: Rect, percent: Option<real>)
    requires rect.y0 == 7
    ensures Gauged(Numbered(c, s), rect, percent) == Numbered(Gauged(c, rect, percent), s)
  {
    if s.contextPct.Some? {
      var n, value := Truncated(s.contextPct.value), if s.working then 255 else DATA;
      forall k | 0 <= k < PIXELS
        ensures Gauged(Numbered(c, s), rect, percent)[k] == Numbered(Gauged(c, rect, percent), s)[k]
      {
        if k / WIDTH >= 7 {
          NumberStaysOut(c, 1, n, value, k);
          NumberStaysOut(Gauged(c, rect, percent), 1, n, value, k);
        }
      }
    }
  }

  lemma MaybeBarsAgree(c: Canvas, rect: Rect, percent: Option<real>)
    requires rect.Fits() && forall k :: 0 <= k < PIXELS && rect.Contains(k) ==> c[k] == 0
    ensures Poc.MaybeBar(c, rect, percent, "normal") == Gauged(c, rect, percent)
  {
    if percent.Some? {
      BarsAgree(c, rect, percent.value, DATA);
    }
  }

  /**
   The default right panel is the proof of concept's Claude panel, pixel for pixel,
   for every quota, context and busy flag, present or not.
   */
  lemma ClaudePanelsAgree(r: Readings)
    ensures Render(DefaultPanels()[1], r) == Poc.Claude(StateOf(r))
  {
    var s := StateOf(r);
    RightPanelInOrder(r);
    NumberAndGaugeCommute(Dark(), s, Poc.FIVE_HOUR, s.fiveHourPct);
    var first := Gauged(Dark(), Poc.FIVE_HOUR, s.fiveHourPct);
    NumberAndGaugeCommute(first, s, Poc.SEVEN_DAY, s.sevenDayPct);
    MaybeBarsAgree(Dark(), Poc.FIVE_HOUR, s.fiveHourPct);
    MaybeBarsAgree(first, Poc.SEVEN_DAY, s.sevenDayPct);
    if s.contextPct.Some? {
      var bars := Gauged(first, Poc.SEVEN_DAY, s.sevenDayPct);
      TruncationsAgree(bars, s.contextPct.value, if s.working then 255 else DATA);
      NumbersAgree(bars, 1, Poc.Int(s.contextPct.value), if s.working then 255 else DATA);
    }
  }

  // ------------------------------------------------------- slots do not interfere

  /** The pixels a slot of a template may touch. */
  function SlotRect(t: Template, index: nat): Rect {
    match t
    case ClockGauge => if index == 0 then Rect(1, 11, 1, 7) else Rect(13, 33, 3, 5)
    case NumberTwoGauges =>
      if index == 0 then Rect(1, 5, 1, 7) else if index == 1 then Rect(7, 33, 1, 2) else Rect(7, 33, 6, 7)
    case FullGauge => Rect(0, 33, 3, 5)
  }

  predicate Owns(t: Template, index: nat, k: nat) {
    index < |Presentations(t)| && SlotRect(t, index).Contains(k)
  }

  lemma OwnersDiffer(t: Template, i: nat, j: nat, k: nat)
    requires Owns(t, i, k) && Owns(t, j, k)
    ensures i == j
  {
  }

  /** What can be in slot `index`: ink of the kind the template allows there. */
  predicate InkFits(t: Template, index: nat, ink: Ink) {
    || ink.Nothing?
    || (index < |Presentations(t)|
        && match Presentations(t)[index]
           case Clock => ink.ClockInk?
           case Number => ink.NumberInk?
           case Gauge => ink.GaugeInk?)
  }

  lemma InkAlwaysFits(p: PanelLayout, r: Readings, index: nat)
    ensures InkFits(p.template, index, InkOf(p, r, index))
  {
  }

  /** Ink changes only its slot's pixels, and paints them from those alone. */
  lemma InkIsLocal(c: Canvas, d: Canvas, t: Template, index: nat, ink: Ink, k: nat)
    requires InkFits(t, index, ink) && k < PIXELS
    ensures !Owns(t, index, k) ==> DrawInk(c, t, index, ink)[k] == c[k]
    ensures c[k] == d[k] ==> DrawInk(c, t, index, ink)[k] == DrawInk(d, t, index, ink)[k]
  {
  }

  type Inks = seq<Ink>

  ghost predicate AllFit(t: Template, inks: Inks) {
    forall i :: 0 <= i < |inks| ==> InkFits(t, i, inks[i])
  }

  function InksOf(p: PanelLayout, r: Readings): Inks {
    seq(|p.slots|, i requires 0 <= i < |p.slots| => InkOf(p, r, i))
  }

  /** The slots drawn in the order of a list. */
  function DrawInOrder(t: Template, inks: Inks, order: seq<nat>): Canvas
    requires forall i :: 0 <= i < |order| ==> order[i] < |inks|
  {
    if order == [] then Dark()
    else
      var n := |order| - 1;
      DrawInk(DrawInOrder(t, inks, order[..n]), t, order[n], inks[order[n]])
  }

  function Upwards(n: nat): (s: seq<nat>)
    ensures |s| == n && forall i :: 0 <= i < n ==> s[i] == i
  {
    seq(n, i requires 0 <= i < n => i)
  }

  lemma {:induction false} RenderIsUpwards(p: PanelLayout, r: Readings, n: nat)
    requires n <= |p.slots|
    ensures RenderSlots(p, r, n) == DrawInOrder(p.template, InksOf(p, r), Upwards(n))
  {
    if n > 0 {
      RenderIsUpwards(p, r, n - 1);
      assert Upwards(n)[..n - 1] == Upwards(n - 1);
    }
  }

  /** The slot that owns pixel k, if any of the first `count` does. */
  function Owner(t: Template, k: nat): (o: Option<nat>)
    ensures o.Some? ==> Owns(t, o.value, k)
    ensures o.None? ==> forall i: nat :: !Owns(t, i, k)
  {
    if Owns(t, 0, k) then Some(0) else if Owns(t, 1, k) then Some(1) else if Owns(t, 2, k) then Some(2) else None
  }

  /** One pixel in closed form: its owner's ink on a dark panel. */
  function PixelOf(t: Template, inks: Inks, order: seq<nat>, k: nat): byte
    requires k < PIXELS && forall i :: 0 <= i < |order| ==> order[i] < |inks|
  {
    var o := Owner(t, k);
    if o.Some? && o.value in order then DrawInk(Dark(), t, o.value, inks[o.value])[k] else 0
  }

  ghost predicate NoRepeats(order: seq<nat>) {
    forall i, j :: 0 <= i < j < |order| ==> order[i] != order[j]
  }

  lemma {:induction false} DrawnPixel(t: Template, inks: Inks, order: seq<nat>, k: nat)
    requires AllFit(t, inks) && k < PIXELS && NoRepeats(order)
    requires forall i :: 0 <= i < |order| ==> order[i] < |inks|
    ensures DrawInOrder(t, inks, order)[k] == PixelOf(t, inks, order, k)
  {
    if order != [] {
      var n := |order| - 1;
      var last := order[n];
      DrawnPixel(t, inks, order[..n], k);
      InkIsLocal(DrawInOrder(t, inks, order[..n]), Dark(), t, last, inks[last], k);
      assert order == order[..n] + [last];
      assert last !in order[..n];
      if Owns(t, last, k) {
        OwnersDiffer(t, last, Owner(t, k).value, k);
      }
    }
  }

  lemma UpwardsIsAll(n: nat)
    ensures NoRepeats(Upwards(n))
    ensures forall i: nat :: i < n ==> i in Upwards(n)
  {
    forall i: nat | i < n ensures i in Upwards(n) {
      assert Upwards(n)[i] == i;
    }
  }

  lemma SameSlotsSamePixel(t: Template, inks: Inks, order: seq<nat>, n: nat, k: nat)
    requires AllFit(t, inks) && k < PIXELS && NoRepeats(order) && n == |inks|
    requires forall i :: 0 <= i < |order| ==> order[i] < n
    requires forall i: nat :: i < n ==> i in order
    ensures DrawInOrder(t, inks, order)[k] == DrawInOrder(t, inks, Upwards(n))[k]
  {
    UpwardsIsAll(n);
    DrawnPixel(t, inks, order, k);
    DrawnPixel(t, inks, Upwards(n), k);
    var o := Owner(t, k);
    if o.Some? {
      assert o.value in order <==> o.value < n;
      assert o.value in Upwards(n) <==> o.value < n;
    }
  }

  /**
   For any panel, valid or not: the slots may be drawn in any order, and the frame
   is the one the renderer draws.
   */
  lemma OrderDoesNotMatter(p: PanelLayout, r: Readings, order: seq<nat>)
    requires NoRepeats(order) && (forall i :: 0 <= i < |order| ==> order[i] < |p.slots|)
    requires forall i: nat :: i < |p.slots| ==> i in order
    ensures DrawInOrder(p.template, InksOf(p, r), order) == Render(p, r)
  {
    var inks, n := InksOf(p, r), |p.slots|;
    forall i | 0 <= i < n ensures InkFits(p.template, i, inks[i]) {
      InkAlwaysFits(p, r, i);
    }
    RenderIsUpwards(p, r, n);
    forall k | 0 <= k < PIXELS
      ensures DrawInOrder(p.template, inks, order)[k] == DrawInOrder(p.template, inks, Upwards(n))[k]
    {
      SameSlotsSamePixel(p.template, inks, order, n, k);
    }
  }

  /** A pixel of a rendered panel is what the slot that owns it puts on a dark panel. */
  lemma RenderedPixel(p: PanelLayout, r: Readings, index: nat, k: nat)
    requires k < PIXELS
    ensures Owns(p.template, index, k) && index < |p.slots| ==>
      Render(p, r)[k] == DrawInk(Dark(), p.template, index, InkOf(p, r, index))[k]
    ensures Render(p, r)[k] == PixelOf(p.template, InksOf(p, r), Upwards(|p.slots|), k)
  {
    var n := |p.slots|;
    forall i | 0 <= i < n ensures InkFits(p.template, i, InksOf(p, r)[i]) {
      InkAlwaysFits(p, r, i);
    }
    RenderIsUpwards(p, r, n);
    UpwardsIsAll(n);
    DrawnPixel(p.template, InksOf(p, r), Upwards(n), k);
    if Owns(p.template, index, k) && index < n {
      OwnersDiffer(p.template, index, Owner(p.template, k).value, k);
    }
  }

  /**
   Changing one slot, or only what it reads, changes no pixel outside that slot's
   rectangle: if all other slots put the same ink down, all other pixels stay.
   */
  lemma SlotsDoNotInterfere(p: PanelLayout, r: Readings, q: PanelLayout, s: Readings, index: nat, k: nat)
    requires p.template == q.template && |p.slots| == |q.slots| && k < PIXELS
    requires forall i: nat :: i < |p.slots| && i != index ==> InkOf(p, r, i) == InkOf(q, s, i)
    requires !Owns(p.template, index, k)
    ensures Render(p, r)[k] == Render(q, s)[k]
  {
    RenderedPixel(p, r, index, k);
    RenderedPixel(q, s, index, k);
  }

  // --------------------------------------------------------- what a slot looks like

  /**
   A hidden leading zero darkens the hour's tens digit of the hours before ten and
   nothing else on the panel.
   */
  lemma HiddenZeroIsDark(p: PanelLayout, r: Readings, w: Widget, k: nat)
    requires p.template.ClockGauge? && p.slots != [] && p.slots[0] == Some(w) && w.presentation.Clock?
    requires w.hideLeadingHourZero && k < PIXELS
    ensures var plain := p.(slots := [Some(w.(hideLeadingHourZero := false))] + p.slots[1..]);
      Render(p, r)[k]
      == if r.hour < 10 && 1 <= k / WIDTH <= 5 && 1 <= k % WIDTH <= 3 then 0 else Render(plain, r)[k]
  {
    var plain := p.(slots := [Some(w.(hideLeadingHourZero := false))] + p.slots[1..]);
    forall i: nat | i < |p.slots| && i != 0 ensures InkOf(plain, r, i) == InkOf(p, r, i) {
      assert plain.slots[i] == p.slots[i];
    }
    if Owns(p.template, 0, k) {
      RenderedPixel(p, r, 0, k);
      RenderedPixel(plain, r, 0, k);
    } else {
      SlotsDoNotInterfere(p, r, plain, r, 0, k);
    }
  }

  /** The rows above the gauges show the number's digits at its level, and are dark otherwise. */
  lemma NumberOnPanel(p: PanelLayout, r: Readings, w: Widget, v: real, k: nat)
    requires p.template.NumberTwoGauges? && p.slots != [] && p.slots[0] == Some(w) && w.presentation.Number?
    requires Value(r, w) == Some(v) && k < PIXELS && Owns(p.template, 0, k)
    ensures Render(p, r)[k] == if NumberLit(Truncated(v), 1, k) then Intensity(r, w, v) else 0
  {
    RenderedPixel(p, r, 0, k);
  }

  lemma GaugeCellOnPanel(p: PanelLayout, r: Readings, index: nat, w: Widget, v: real, k: nat)
    requires index < |p.slots| && p.slots[index] == Some(w) && w.presentation.Gauge?
    requires index < |Presentations(p.template)| && Presentations(p.template)[index].Gauge?
    requires Value(r, w) == Some(v) && k < PIXELS && GaugeRect(p.template, index).Contains(k)
    ensures Render(p, r)[k]
         == DrawGauge(Dark(), GaugeRect(p.template, index), v, Intensity(r, w, v), w.reversed)[k]
  {
    RenderedPixel(p, r, index, k);
  }

  lemma ColumnsEqual(c: Canvas, d: Canvas, rect: Rect, column: nat)
    requires rect.Fits() && rect.x0 <= column <= rect.x1
    requires forall k :: 0 <= k < PIXELS && rect.Contains(k) ==> c[k] == d[k]
    ensures ColumnOf(c, rect, column) == ColumnOf(d, rect, column)
  {
    forall i | 0 <= i < rect.Rows() ensures ColumnOf(c, rect, column)[i] == ColumnOf(d, rect, column)[i] {
      PixelAt(rect.y0 + i, column);
    }
  }

  /** On the panel, too, every column of a gauge holds exactly the light of its value at its level. */
  lemma GaugeOnPanel(p: PanelLayout, r: Readings, index: nat, w: Widget, v: real, column: nat)
    requires index < |p.slots| && p.slots[index] == Some(w) && w.presentation.Gauge?
    requires index < |Presentations(p.template)| && Presentations(p.template)[index].Gauge?
    requires var rect := GaugeRect(p.template, index); rect.x0 <= column <= rect.x1
    requires Value(r, w) == Some(v)
    ensures var rect := GaugeRect(p.template, index);
      rect.Fits() && Total(ColumnOf(Render(p, r), rect, column)) == Light(rect.Rows(), v, Intensity(r, w, v))
  {
    var rect := GaugeRect(p.template, index);
    var drawn := DrawGauge(Dark(), rect, v, Intensity(r, w, v), w.reversed);
    forall k | 0 <= k < PIXELS && rect.Contains(k) ensures Render(p, r)[k] == drawn[k] {
      GaugeCellOnPanel(p, r, index, w, v, k);
    }
    ColumnsEqual(Render(p, r), drawn, rect, column);
    GaugeColumnSum(Dark(), rect, v, Intensity(r, w, v), w.reversed, column);
  }

  /** A full gauge fills the three middle columns over all 34 rows. */
  lemma FullGaugeIsWhole(p: PanelLayout, r: Readings, w: Widget, v: real, column: nat)
    requires p.template.FullGauge? && p.slots != [] && p.slots[0] == Some(w) && w.presentation.Gauge?
    requires Value(r, w) == Some(v) && 3 <= column <= 5
    ensures Total(ColumnOf(Render(p, r), Rect(0, 33, 3, 5), column)) == Light(34, v, Intensity(r, w, v))
  {
    GaugeOnPanel(p, r, 0, w, v, column);
  }

  /** Is the widget's session, the last of the greatest eligible ones, busy? */
  ghost predicate FollowsBusy(r: Readings, w: Widget) {
    exists i: nat :: IsLastGreatest(r.sessions, w.provider, w.sessionId, i) && r.sessions[i].busy
  }

  lemma FollowsBusyIff(r: Readings, w: Widget)
    ensures FollowsBusy(r, w) <==> SessionOf(r, w).Some? && SessionOf(r, w).value.busy
  {
    SelectedIsGreatest(r.sessions, w.provider, w.sessionId);
    if exists s :: s in r.sessions && Eligible(s, w.provider, w.sessionId) {
      LastGreatestExists(r.sessions, w.provider, w.sessionId);
    }
    forall i: nat | IsLastGreatest(r.sessions, w.provider, w.sessionId, i)
      ensures SessionOf(r, w) == Some(r.sessions[i])
    {
      SelectedIsLastGreatest(r.sessions, w.provider, w.sessionId, i);
    }
  }

  /** Reached: for the battery from above, for everything else from below. */
  predicate Warns(w: Widget, v: real) {
    w.warningThreshold.Some?
    && var t := w.warningThreshold.value as real;
       if w.source.Battery? then !(v > t) else !(v < t)
  }

  /**
   Full light exactly for a context whose session is busy or a threshold that is
   reached; otherwise the widget's own level, or 180.
   */
  lemma LevelOfWidget(r: Readings, w: Widget, v: real)
    requires Value(r, w) == Some(v)
    ensures Intensity(r, w, v)
         == if (w.source.Context? && FollowsBusy(r, w)) || Warns(w, v) then 255
            else if w.intensity.Some? then w.intensity.value else 180
  {
    FollowsBusyIff(r, w);
  }
}
