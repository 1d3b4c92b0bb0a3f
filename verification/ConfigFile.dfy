/** The configuration file, as `serde_json::to_vec_pretty` writes it. */
module ConfigFile {
  import opened Basics
  import opened Assistant
  import opened Layout
  import opened Configuration
  import opened Json

  /** The largest file a start accepts. */
  const MAX_FILE := 32768

  function ProviderText(p: Provider): (t: string)
    ensures |t| <= 17
  {
    match p
    case Claude => "\"claude\""
    case OpencodeOpenai => "\"opencode_openai\""
  }

  function SourceText(s: Source): (t: string)
    ensures |t| <= 11
  {
    match s
    case Time => "\"clock\""
    case Battery => "\"battery\""
    case Context => "\"context\""
    case Activity => "\"activity\""
    case FiveHour => "\"five_hour\""
    case Weekly => "\"weekly\""
  }

  function PresentationText(p: Presentation): (t: string)
    ensures |t| <= 8
  {
    match p
    case Clock => "\"clock\""
    case Number => "\"number\""
    case Gauge => "\"gauge\""
  }

  function TemplateText(t: Template): (r: string)
    ensures |r| <= 19
  {
    match t
    case ClockGauge => "\"clock_gauge\""
    case NumberTwoGauges => "\"number_two_gauges\""
    case FullGauge => "\"full_gauge\""
  }

  function BrightnessText(b: Brightness, d: nat): string {
    Block(d,
      Member(d, "minimum", Decimal(b.minimum)) + "," + Member(d, "maximum", Decimal(b.maximum)) + ","
      + Member(d, "manual", Decimal(b.manual)) + "," + Member(d, "off", Boolean(b.off)))
  }

  function OptionalByte(b: Option<byte>): (t: string)
    ensures |t| <= 4
  {
    if b.None? then "null"
    else
      ByteLength(b.value);
      Decimal(b.value)
  }

  function WidgetKind(w: Widget, d: nat): string {
    Member(d, "provider", ProviderText(w.provider)) + "," + Member(d, "session_id", OptionalText(w.sessionId)) + ","
    + Member(d, "source", SourceText(w.source)) + "," + Member(d, "presentation", PresentationText(w.presentation))
  }

  function WidgetStyle(w: Widget, d: nat): string {
    Member(d, "intensity", OptionalByte(w.intensity)) + "," + Member(d, "reversed", Boolean(w.reversed)) + ","
    + Member(d, "hide_leading_hour_zero", Boolean(w.hideLeadingHourZero)) + ","
    + Member(d, "warning_threshold", OptionalByte(w.warningThreshold))
  }

  function WidgetText(w: Widget, d: nat): string {
    Block(d, WidgetKind(w, d) + "," + WidgetStyle(w, d))
  }

  function SlotText(slot: Option<Widget>, d: nat): string {
    if slot.None? then "null" else WidgetText(slot.value, d)
  }

  function SlotTexts(p: PanelLayout, d: nat): seq<string> {
    seq(|p.slots|, i requires 0 <= i < |p.slots| => SlotText(p.slots[i], d))
  }

  function OverrideText(b: Option<Brightness>, d: nat): string {
    if b.None? then "null" else BrightnessText(b.value, d)
  }

  function PanelDrawing(p: PanelLayout, d: nat): string {
    Member(d, "name", Quoted(p.name)) + "," + Member(d, "template", TemplateText(p.template)) + ","
    + Member(d, "slots", List(d + 1, SlotTexts(p, d + 2)))
  }

  function PanelDevice(p: PanelLayout, d: nat): string {
    Member(d, "binding", OptionalText(p.binding)) + ","
    + Member(d, "brightness_override", OverrideText(p.brightnessOverride, d + 1))
  }

  function PanelText(p: PanelLayout, d: nat): string {
    Block(d, PanelDrawing(p, d) + "," + PanelDevice(p, d))
  }

  function PanelTexts(c: Config, d: nat): seq<string> {
    seq(|c.panels|, i requires 0 <= i < |c.panels| => PanelText(c.panels[i], d))
  }

  function ConfigText(c: Config, d: nat): string {
    Block(d,
      Member(d, "schema_version", Decimal(c.schemaVersion)) + ","
      + Member(d, "clock_intensity", Decimal(c.clockIntensity)) + ","
      + Member(d, "brightness", BrightnessText(c.brightness, d + 1)) + ","
      + Member(d, "panels", List(d + 1, PanelTexts(c, d + 2))))
  }

  function FileText(saved: SavedConfig): string {
    Block(0, Member(0, "revision", Decimal(saved.revision)) + "," + Member(0, "config", ConfigText(saved.config, 1)))
  }

  // -------------------------------------------------------------------- bounds

  lemma ByteLength(b: byte)
    ensures |Decimal(b)| <= 3
  {
    Tens();
    DecimalLength(b, 3);
  }

  lemma BrightnessLength(b: Brightness, d: nat)
    ensures |BrightnessText(b, d)| <= 80 + 10 * d
  {
    ByteLength(b.minimum);
    ByteLength(b.maximum);
    ByteLength(b.manual);
  }

  lemma KindLength(w: Widget, d: nat)
    requires w.sessionId.Some? ==> SafeId(w.sessionId.value)
    ensures |WidgetKind(w, d)| <= 240 + 8 * d
  {
    if w.sessionId.Some? { SafeIdLength(w.sessionId.value); }
  }

  lemma StyleLength(w: Widget, d: nat)
    ensures |WidgetStyle(w, d)| <= 110 + 8 * d
  {
  }

  lemma WidgetLength(w: Widget, d: nat)
    requires w.sessionId.Some? ==> SafeId(w.sessionId.value)
    ensures |WidgetText(w, d)| <= 360 + 18 * d
  {
    KindLength(w, d);
    StyleLength(w, d);
  }

  lemma SlotLength(p: PanelLayout, i: nat, d: nat)
    requires PanelValid(p) && i < |p.slots|
    ensures |SlotText(p.slots[i], d)| <= 360 + 18 * d
  {
    if p.slots[i].Some? {
      assert WidgetFits(p.template, i, p.slots[i].value);
      WidgetLength(p.slots[i].value, d);
    }
  }

  lemma SlotsLength(p: PanelLayout, d: nat)
    requires PanelValid(p) && d <= 5
    ensures |List(d + 1, SlotTexts(p, d + 2))| <= 2000
  {
    var items := SlotTexts(p, d + 2);
    forall i | 0 <= i < |items| ensures |items[i]| <= 560 {
      SlotLength(p, i, d + 2);
    }
    ListLength(d + 1, items, 3, 560);
  }

  lemma QuotedLength(s: string, most: nat)
    requires |s| <= most
    ensures |Quoted(s)| <= 6 * most + 2
  {
    EscapedLength(s);
  }

  lemma DrawingLength(p: PanelLayout, d: nat)
    requires PanelValid(p) && d <= 5
    ensures |PanelDrawing(p, d)| <= 2400
  {
    QuotedLength(p.name, 32);
    SlotsLength(p, d);
    var name := Member(d, "name", Quoted(p.name));
    var template := Member(d, "template", TemplateText(p.template));
    var slots := Member(d, "slots", List(d + 1, SlotTexts(p, d + 2)));
    assert |name| <= 250 && |template| <= 60 && |slots| <= 2050;
    assert PanelDrawing(p, d) == name + "," + template + "," + slots;
  }

  lemma DeviceLength(p: PanelLayout, d: nat)
    requires PanelValid(p) && d <= 5
    ensures |PanelDevice(p, d)| <= 6500
  {
    if p.binding.Some? { QuotedLength(p.binding.value, 1024); }
    if p.brightnessOverride.Some? { BrightnessLength(p.brightnessOverride.value, d + 1); }
  }

  lemma PanelLength(p: PanelLayout, d: nat)
    requires PanelValid(p) && d <= 5
    ensures |PanelText(p, d)| <= 9000
  {
    DrawingLength(p, d);
    DeviceLength(p, d);
  }

  lemma PanelsLength(c: Config)
    requires c.Valid()
    ensures |List(2, PanelTexts(c, 3))| <= 19_000
  {
    var items := PanelTexts(c, 3);
    forall i | 0 <= i < |items| ensures |items[i]| <= 9000 {
      PanelLength(c.panels[i], 3);
    }
    ListLength(2, items, 2, 9000);
  }

  lemma ConfigLength(c: Config)
    requires c.Valid()
    ensures |ConfigText(c, 1)| <= 20_000
  {
    Tens();
    DecimalLength(c.schemaVersion, 5);
    ByteLength(c.clockIntensity);
    BrightnessLength(c.brightness, 2);
    PanelsLength(c);
  }

  /** Every document a valid configuration makes is small enough to load again. */
  lemma ValidFileFits(saved: SavedConfig)
    requires saved.config.Valid()
    ensures |FileText(saved)| <= MAX_FILE
  {
    ConfigLength(saved.config);
    Tens();
    DecimalLength(saved.revision, 10);
  }
}
