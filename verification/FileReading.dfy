/** The configuration file says which document it holds: different documents are never written alike. */
module FileReading {
  import opened Basics
  import opened Assistant
  import opened Layout
  import opened Configuration
  import opened Json
  import opened JsonReading
  import opened ConfigFile

  /** A member's line up to its value. */
  function Key(d: nat, key: string): string {
    Line(d + 1) + "\"" + key + "\": "
  }

  lemma ProviderIsRead(a: Provider, b: Provider)
    ensures Reads(a, b, ProviderText(a), ProviderText(b))
  {
    if a != b {
      DifferAt(ProviderText(a), ProviderText(b), 1);
    }
  }

  lemma SourceIsRead(a: Source, b: Source)
    ensures Reads(a, b, SourceText(a), SourceText(b))
  {
    if a != b {
      DifferAt(SourceText(a), SourceText(b), if SourceText(a)[1] == SourceText(b)[1] then 2 else 1);
    }
  }

  lemma PresentationIsRead(a: Presentation, b: Presentation)
    ensures Reads(a, b, PresentationText(a), PresentationText(b))
  {
    if a != b {
      DifferAt(PresentationText(a), PresentationText(b), 1);
    }
  }

  lemma TemplateIsRead(a: Template, b: Template)
    ensures Reads(a, b, TemplateText(a), TemplateText(b))
  {
    if a != b {
      DifferAt(TemplateText(a), TemplateText(b), 1);
    }
  }

  lemma OptionalByteIsRead(a: Option<byte>, b: Option<byte>)
    ensures Reads(a, b, OptionalByte(a), OptionalByte(b))
  {
    OptionalNumberIsRead(a, b);
  }

  // ---------------------------------------------------------- groups of lines

  function TwoLines(d: nat, k: string, x: string, l: string, y: string): string {
    Member(d, k, x) + "," + Member(d, l, y)
  }

  function ThreeLines(d: nat, k: string, x: string, l: string, y: string, m: string, z: string): string {
    Member(d, k, x) + "," + Member(d, l, y) + "," + Member(d, m, z)
  }

  function FourLines(d: nat, k: string, w: string, l: string, x: string, m: string, y: string,
                     n: string, z: string): string
  {
    Member(d, k, w) + "," + Member(d, l, x) + "," + Member(d, m, y) + "," + Member(d, n, z)
  }

  lemma TwoLinesAreRead(d: nat, k: string, x: string, x': string, l: string, y: string, y': string)
    requires Apart(x, x') && Apart(y, y')
    ensures Reads((x, y), (x', y'), TwoLines(d, k, x, l, y), TwoLines(d, k, x', l, y'))
  {
    TwoAreRead([Key(d, k), Key(d, l)], x, y, x', y');
    assert TwoLines(d, k, x, l, y) == Two([Key(d, k), Key(d, l)], [x, y]);
    assert TwoLines(d, k, x', l, y') == Two([Key(d, k), Key(d, l)], [x', y']);
  }

  lemma ThreeLinesAreRead(d: nat, k: string, x: string, x': string, l: string, y: string, y': string,
                          m: string, z: string, z': string)
    requires Apart(x, x') && Apart(y, y') && Apart(z, z')
    ensures Reads((x, y, z), (x', y', z'), ThreeLines(d, k, x, l, y, m, z), ThreeLines(d, k, x', l, y', m, z'))
  {
    var keys := [Key(d, k), Key(d, l), Key(d, m)];
    ThreeAreRead(keys, x, y, z, x', y', z');
    assert ThreeLines(d, k, x, l, y, m, z) == Three(keys, [x, y, z]);
    assert ThreeLines(d, k, x', l, y', m, z') == Three(keys, [x', y', z']);
  }

  lemma FourLinesAreRead(d: nat, k: string, w: string, w': string, l: string, x: string, x': string,
                         m: string, y: string, y': string, n: string, z: string, z': string)
    requires Apart(w, w') && Apart(x, x') && Apart(y, y') && Apart(z, z')
    ensures Reads((w, x, y, z), (w', x', y', z'),
                  FourLines(d, k, w, l, x, m, y, n, z), FourLines(d, k, w', l, x', m, y', n, z'))
  {
    var keys := [Key(d, k), Key(d, l), Key(d, m), Key(d, n)];
    FourAreRead(keys, w, x, y, z, w', x', y', z');
    assert FourLines(d, k, w, l, x, m, y, n, z) == Four(keys, [w, x, y, z]);
    assert FourLines(d, k, w', l, x', m, y', n, z') == Four(keys, [w', x', y', z']);
  }

  lemma ObjectOfFourIsRead(d: nat, k: string, w: string, w': string, l: string, x: string, x': string,
                           m: string, y: string, y': string, n: string, z: string, z': string)
    requires Apart(w, w') && Apart(x, x') && Apart(y, y') && Apart(z, z')
    ensures Reads((w, x, y, z), (w', x', y', z'),
                  Block(d, FourLines(d, k, w, l, x, m, y, n, z)), Block(d, FourLines(d, k, w', l, x', m, y', n, z')))
  {
    FourLinesAreRead(d, k, w, w', l, x, x', m, y, y', n, z, z');
    BlockIsRead(d, FourLines(d, k, w, l, x, m, y, n, z), FourLines(d, k, w', l, x', m, y', n, z'));
  }

  // ------------------------------------------------------------ the document

  lemma BrightnessIsRead(a: Brightness, b: Brightness, d: nat)
    ensures Reads(a, b, BrightnessText(a, d), BrightnessText(b, d))
  {
    NumberIsRead(a.minimum, b.minimum);
    NumberIsRead(a.maximum, b.maximum);
    NumberIsRead(a.manual, b.manual);
    BooleanIsRead(a.off, b.off);
    ObjectOfFourIsRead(d, "minimum", Decimal(a.minimum), Decimal(b.minimum),
                       "maximum", Decimal(a.maximum), Decimal(b.maximum),
                       "manual", Decimal(a.manual), Decimal(b.manual), "off", Boolean(a.off), Boolean(b.off));
  }

  lemma KindIsRead(a: Widget, b: Widget, d: nat)
    ensures Reads((a.provider, a.sessionId, a.source, a.presentation),
                  (b.provider, b.sessionId, b.source, b.presentation), WidgetKind(a, d), WidgetKind(b, d))
  {
    ProviderIsRead(a.provider, b.provider);
    OptionalTextIsRead(a.sessionId, b.sessionId);
    SourceIsRead(a.source, b.source);
    PresentationIsRead(a.presentation, b.presentation);
    FourLinesAreRead(d, "provider", ProviderText(a.provider), ProviderText(b.provider),
                     "session_id", OptionalText(a.sessionId), OptionalText(b.sessionId),
                     "source", SourceText(a.source), SourceText(b.source),
                     "presentation", PresentationText(a.presentation), PresentationText(b.presentation));
  }

  lemma StyleIsRead(a: Widget, b: Widget, d: nat)
    ensures Reads((a.intensity, a.reversed, a.hideLeadingHourZero, a.warningThreshold),
                  (b.intensity, b.reversed, b.hideLeadingHourZero, b.warningThreshold),
                  WidgetStyle(a, d), WidgetStyle(b, d))
  {
    OptionalByteIsRead(a.intensity, b.intensity);
    BooleanIsRead(a.reversed, b.reversed);
    BooleanIsRead(a.hideLeadingHourZero, b.hideLeadingHourZero);
    OptionalByteIsRead(a.warningThreshold, b.warningThreshold);
    FourLinesAreRead(d, "intensity", OptionalByte(a.intensity), OptionalByte(b.intensity),
                     "reversed", Boolean(a.reversed), Boolean(b.reversed),
                     "hide_leading_hour_zero", Boolean(a.hideLeadingHourZero), Boolean(b.hideLeadingHourZero),
                     "warning_threshold", OptionalByte(a.warningThreshold), OptionalByte(b.warningThreshold));
  }

  lemma WidgetIsRead(a: Widget, b: Widget, d: nat)
    ensures Reads(a, b, WidgetText(a, d), WidgetText(b, d))
  {
    KindIsRead(a, b, d);
    StyleIsRead(a, b, d);
    GroupsAreRead(WidgetKind(a, d), WidgetStyle(a, d), WidgetKind(b, d), WidgetStyle(b, d));
    BlockIsRead(d, WidgetKind(a, d) + "," + WidgetStyle(a, d), WidgetKind(b, d) + "," + WidgetStyle(b, d));
  }

  lemma NullIsNoBlock(body: string, d: nat)
    ensures Apart("null", Block(d, body)) && Apart(Block(d, body), "null") && Block(d, body) != "null"
  {
    DifferAt("null", Block(d, body), 0);
    DifferAt(Block(d, body), "null", 0);
  }

  lemma SlotIsRead(a: Option<Widget>, b: Option<Widget>, d: nat)
    ensures Reads(a, b, SlotText(a, d), SlotText(b, d))
  {
    if a.Some? && b.Some? {
      WidgetIsRead(a.value, b.value, d);
    } else if a.Some? {
      NullIsNoBlock(WidgetKind(a.value, d) + "," + WidgetStyle(a.value, d), d);
    } else if b.Some? {
      NullIsNoBlock(WidgetKind(b.value, d) + "," + WidgetStyle(b.value, d), d);
    }
  }

  lemma SlotTextsTell(p: PanelLayout, q: PanelLayout, d: nat)
    requires SlotTexts(p, d) == SlotTexts(q, d)
    ensures p.slots == q.slots
  {
    assert |p.slots| == |SlotTexts(p, d)| == |q.slots|;
    forall i | 0 <= i < |p.slots| ensures p.slots[i] == q.slots[i] {
      assert SlotTexts(p, d)[i] == SlotTexts(q, d)[i];
      SlotIsRead(p.slots[i], q.slots[i], d);
    }
  }

  lemma SlotTextsApart(p: PanelLayout, q: PanelLayout, d: nat, i: nat)
    requires i < |p.slots| && i < |q.slots|
    ensures Apart(SlotTexts(p, d)[i], SlotTexts(q, d)[i])
  {
    SlotIsRead(p.slots[i], q.slots[i], d);
  }

  lemma AllSlotTextsApart(p: PanelLayout, q: PanelLayout, d: nat)
    ensures forall i: nat :: i < Min(|SlotTexts(p, d)|, |SlotTexts(q, d)|) ==>
      Apart(SlotTexts(p, d)[i], SlotTexts(q, d)[i])
  {
    forall i: nat | i < Min(|SlotTexts(p, d)|, |SlotTexts(q, d)|)
      ensures Apart(SlotTexts(p, d)[i], SlotTexts(q, d)[i])
    {
      SlotTextsApart(p, q, d, i);
    }
  }

  lemma SlotListIsRead(p: PanelLayout, q: PanelLayout, d: nat)
    ensures var x, y := List(d, SlotTexts(p, d + 1)), List(d, SlotTexts(q, d + 1));
      Apart(x, y) && (x == y ==> SlotTexts(p, d + 1) == SlotTexts(q, d + 1))
  {
    AllSlotTextsApart(p, q, d + 1);
    ListIsRead(d, SlotTexts(p, d + 1), SlotTexts(q, d + 1));
  }

  lemma SlotsAreRead(p: PanelLayout, q: PanelLayout, d: nat)
    ensures Reads(p.slots, q.slots, List(d, SlotTexts(p, d + 1)), List(d, SlotTexts(q, d + 1)))
  {
    SlotListIsRead(p, q, d);
    if SlotTexts(p, d + 1) == SlotTexts(q, d + 1) {
      SlotTextsTell(p, q, d + 1);
    }
  }

  lemma OverrideIsRead(a: Option<Brightness>, b: Option<Brightness>, d: nat)
    ensures Reads(a, b, OverrideText(a, d), OverrideText(b, d))
  {
    if a.Some? && b.Some? {
      BrightnessIsRead(a.value, b.value, d);
    } else if a != b {
      DifferAt(OverrideText(a, d), OverrideText(b, d), 0);
    }
  }

  lemma DrawingIsRead(p: PanelLayout, q: PanelLayout, d: nat)
    ensures Reads((p.name, p.template, p.slots), (q.name, q.template, q.slots), PanelDrawing(p, d), PanelDrawing(q, d))
  {
    TextIsRead(p.name, q.name);
    TemplateIsRead(p.template, q.template);
    SlotsAreRead(p, q, d + 1);
    ThreeLinesAreRead(d, "name", Quoted(p.name), Quoted(q.name),
                      "template", TemplateText(p.template), TemplateText(q.template),
                      "slots", List(d + 1, SlotTexts(p, d + 2)), List(d + 1, SlotTexts(q, d + 2)));
  }

  lemma DeviceIsRead(p: PanelLayout, q: PanelLayout, d: nat)
    ensures Reads((p.binding, p.brightnessOverride), (q.binding, q.brightnessOverride),
                  PanelDevice(p, d), PanelDevice(q, d))
  {
    OptionalTextIsRead(p.binding, q.binding);
    OverrideIsRead(p.brightnessOverride, q.brightnessOverride, d + 1);
    TwoLinesAreRead(d, "binding", OptionalText(p.binding), OptionalText(q.binding),
                    "brightness_override", OverrideText(p.brightnessOverride, d + 1),
                    OverrideText(q.brightnessOverride, d + 1));
  }

  lemma PanelIsRead(p: PanelLayout, q: PanelLayout, d: nat)
    ensures Reads(p, q, PanelText(p, d), PanelText(q, d))
  {
    DrawingIsRead(p, q, d);
    DeviceIsRead(p, q, d);
    GroupsAreRead(PanelDrawing(p, d), PanelDevice(p, d), PanelDrawing(q, d), PanelDevice(q, d));
    BlockIsRead(d, PanelDrawing(p, d) + "," + PanelDevice(p, d), PanelDrawing(q, d) + "," + PanelDevice(q, d));
  }

  lemma PanelTextsTell(a: Config, b: Config, d: nat)
    requires PanelTexts(a, d) == PanelTexts(b, d)
    ensures a.panels == b.panels
  {
    assert |a.panels| == |PanelTexts(a, d)| == |b.panels|;
    forall i | 0 <= i < |a.panels| ensures a.panels[i] == b.panels[i] {
      assert PanelTexts(a, d)[i] == PanelTexts(b, d)[i];
      PanelIsRead(a.panels[i], b.panels[i], d);
    }
  }

  lemma PanelTextsApart(a: Config, b: Config, d: nat, i: nat)
    requires i < |a.panels| && i < |b.panels|
    ensures Apart(PanelTexts(a, d)[i], PanelTexts(b, d)[i])
  {
    PanelIsRead(a.panels[i], b.panels[i], d);
  }

  lemma AllPanelTextsApart(a: Config, b: Config, d: nat)
    ensures forall i: nat :: i < Min(|PanelTexts(a, d)|, |PanelTexts(b, d)|) ==>
      Apart(PanelTexts(a, d)[i], PanelTexts(b, d)[i])
  {
    forall i: nat | i < Min(|PanelTexts(a, d)|, |PanelTexts(b, d)|)
      ensures Apart(PanelTexts(a, d)[i], PanelTexts(b, d)[i])
    {
      PanelTextsApart(a, b, d, i);
    }
  }

  lemma PanelListIsRead(a: Config, b: Config, d: nat)
    ensures var x, y := List(d, PanelTexts(a, d + 1)), List(d, PanelTexts(b, d + 1));
      Apart(x, y) && (x == y ==> PanelTexts(a, d + 1) == PanelTexts(b, d + 1))
  {
    AllPanelTextsApart(a, b, d + 1);
    ListIsRead(d, PanelTexts(a, d + 1), PanelTexts(b, d + 1));
  }

  lemma PanelsAreRead(a: Config, b: Config, d: nat)
    ensures Reads(a.panels, b.panels, List(d, PanelTexts(a, d + 1)), List(d, PanelTexts(b, d + 1)))
  {
    PanelListIsRead(a, b, d);
    if PanelTexts(a, d + 1) == PanelTexts(b, d + 1) {
      PanelTextsTell(a, b, d + 1);
    }
  }

  function ConfigBlock(d: nat, schema: string, clock: string, brightness: string, panels: string): string {
    Block(d, FourLines(d, "schema_version", schema, "clock_intensity", clock, "brightness", brightness,
                       "panels", panels))
  }

  lemma ConfigIsBlock(c: Config, d: nat)
    ensures ConfigText(c, d)
         == ConfigBlock(d, Decimal(c.schemaVersion), Decimal(c.clockIntensity), BrightnessText(c.brightness, d + 1),
                        List(d + 1, PanelTexts(c, d + 2)))
  {
  }

  lemma ConfigBlockIsRead(a: Config, b: Config, d: nat, w: string, w': string, x: string, x': string,
                          y: string, y': string, z: string, z': string)
    requires Reads(a.schemaVersion, b.schemaVersion, w, w') && Reads(a.clockIntensity, b.clockIntensity, x, x')
    requires Reads(a.brightness, b.brightness, y, y') && Reads(a.panels, b.panels, z, z')
    ensures Reads(a, b, ConfigBlock(d, w, x, y, z), ConfigBlock(d, w', x', y', z'))
  {
    ObjectOfFourIsRead(d, "schema_version", w, w', "clock_intensity", x, x', "brightness", y, y', "panels", z, z');
  }

  lemma ConfigIsRead(a: Config, b: Config, d: nat)
    ensures Reads(a, b, ConfigText(a, d), ConfigText(b, d))
  {
    NumberIsRead(a.schemaVersion, b.schemaVersion);
    NumberIsRead(a.clockIntensity, b.clockIntensity);
    BrightnessIsRead(a.brightness, b.brightness, d + 1);
    PanelsAreRead(a, b, d + 1);
    ConfigIsBlock(a, d);
    ConfigIsBlock(b, d);
    ConfigBlockIsRead(a, b, d, Decimal(a.schemaVersion), Decimal(b.schemaVersion),
                      Decimal(a.clockIntensity), Decimal(b.clockIntensity),
                      BrightnessText(a.brightness, d + 1), BrightnessText(b.brightness, d + 1),
                      List(d + 1, PanelTexts(a, d + 2)), List(d + 1, PanelTexts(b, d + 2)));
  }

  /**
   The text of the file determines the document: whatever their configurations, valid
   or not, two documents that are written alike are the same.
   */
  lemma FileTextIsInjective(a: SavedConfig, b: SavedConfig)
    requires FileText(a) == FileText(b)
    ensures a == b
  {
    NumberIsRead(a.revision, b.revision);
    ConfigIsRead(a.config, b.config, 1);
    var x, y := ConfigText(a.config, 1), ConfigText(b.config, 1);
    TwoLinesAreRead(0, "revision", Decimal(a.revision), Decimal(b.revision), "config", x, y);
    BlockIsRead(0, TwoLines(0, "revision", Decimal(a.revision), "config", x),
                TwoLines(0, "revision", Decimal(b.revision), "config", y));
  }
}
