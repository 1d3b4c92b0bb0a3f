/** The user configuration: which ones are accepted, and what is wrong with the others. */
module Configuration {
  import opened Basics
  import opened Assistant
  import opened Layout

  type u32 = n: int | 0 <= n < 0x1_0000_0000

  const U32_MAX: u32 := 0xffff_ffff

  datatype Config = Config(
    schemaVersion: u16, clockIntensity: byte, brightness: Brightness, panels: seq<PanelLayout>)
  {
    predicate Valid() {
      && brightness.Valid() && schemaVersion == 2 && clockIntensity > 0 && 1 <= |panels| <= 2
      && (forall p :: 0 <= p < |panels| ==> PanelValid(panels[p]))
      && (forall p, q :: 0 <= p < q < |panels| ==> panels[p].name != panels[q].name)
      && (forall p, q :: 0 <= p < q < |panels| && panels[p].binding.Some? ==> panels[p].binding != panels[q].binding)
    }
  }

  datatype SavedConfig = SavedConfig(revision: u32, config: Config)

  const DEFAULT_BRIGHTNESS := Brightness(3, 255, 32, false)

  function Default(): SavedConfig {
    SavedConfig(0, Config(2, DATA, DEFAULT_BRIGHTNESS, DefaultPanels()))
  }

  predicate WidgetFits(t: Template, index: nat, w: Widget) {
    && index < |Presentations(t)| && w.presentation == Presentations(t)[index]
    && w.intensity != Some(0)
    && (w.sessionId.Some? ==> SafeId(w.sessionId.value))
    && (w.warningThreshold.Some? ==> w.warningThreshold.value <= 100)
    && (w.source == Time <==> w.presentation == Clock)
  }

  predicate NameLength(name: string) {
    1 <= |name| <= 32
  }

  predicate BindingLength(binding: string) {
    1 <= |binding| <= 1024
  }

  /** A panel on its own, apart from the other panel. */
  predicate PanelValid(p: PanelLayout) {
    && NameLength(p.name)
    && (p.binding.Some? ==> BindingLength(p.binding.value))
    && (p.brightnessOverride.Some? ==> p.brightnessOverride.value.Valid())
    && |p.slots| == |Presentations(p.template)|
    && forall s :: 0 <= s < |p.slots| && p.slots[s].Some? ==> WidgetFits(p.template, s, p.slots[s].value)
  }

  // -------------------------------------------------------------------- errors

  datatype Field =
    | OfBrightness
    | OfSchema
    | OfClock
    | OfPanels
    | OfOverride(panel: nat)
    | OfBinding(panel: nat)
    | OfName(panel: nat)
    | OfSlots(panel: nat)
    | OfSlot(panel: nat, slot: nat)

  /** Is the field wrong? A name or binding is also wrong if an earlier panel has it. */
  predicate Wrong(c: Config, f: Field) {
    match f
    case OfBrightness => !c.brightness.Valid()
    case OfSchema => c.schemaVersion != 2
    case OfClock => c.clockIntensity == 0
    case OfPanels => !(1 <= |c.panels| <= 2)
    case _ => f.panel < |c.panels| && PanelWrong(c, f)
  }

  predicate PanelWrong(c: Config, f: Field)
    requires !f.OfBrightness? && !f.OfSchema? && !f.OfClock? && !f.OfPanels? && f.panel < |c.panels|
  {
    var panel := c.panels[f.panel];
    match f
    case OfOverride(_) => panel.brightnessOverride.Some? && !panel.brightnessOverride.value.Valid()
    case OfBinding(p) =>
      panel.binding.Some? && (!BindingLength(panel.binding.value) || BindingTaken(c, p, panel.binding.value))
    case OfName(p) => !NameLength(panel.name) || NameTaken(c, p, panel.name)
    case OfSlots(_) => |panel.slots| != |Presentations(panel.template)|
    case OfSlot(_, s) =>
      s < |panel.slots| && panel.slots[s].Some? && !WidgetFits(panel.template, s, panel.slots[s].value)
  }

  predicate NameTaken(c: Config, n: nat, name: string)
    requires n <= |c.panels|
  {
    exists q :: 0 <= q < n && c.panels[q].name == name
  }

  predicate BindingTaken(c: Config, n: nat, binding: string)
    requires n <= |c.panels|
  {
    exists q :: 0 <= q < n && c.panels[q].binding == Some(binding)
  }

  /** A configuration is valid exactly when no field of it is wrong. */
  lemma ValidIffNothingWrong(c: Config)
    ensures c.Valid() <==> forall f :: !Wrong(c, f)
  {
    if c.Valid() {
      forall f ensures !Wrong(c, f) {
        NothingWrongIfValid(c, f);
      }
    }
    if forall f :: !Wrong(c, f) {
      assert !Wrong(c, OfBrightness) && !Wrong(c, OfSchema) && !Wrong(c, OfClock) && !Wrong(c, OfPanels);
      forall p | 0 <= p < |c.panels| ensures PanelValid(c.panels[p]) {
        PanelValidIfNothingWrong(c, p);
      }
      forall p, q | 0 <= p < q < |c.panels|
        ensures c.panels[p].name != c.panels[q].name
        ensures c.panels[p].binding.Some? ==> c.panels[p].binding != c.panels[q].binding
      {
        assert !Wrong(c, OfName(q)) && !Wrong(c, OfBinding(q));
      }
    }
  }

  lemma NothingWrongIfValid(c: Config, f: Field)
    requires c.Valid()
    ensures !Wrong(c, f)
  {
    match f
    case OfBrightness =>
    case OfSchema =>
    case OfClock =>
    case OfPanels =>
    case _ => if f.panel < |c.panels| { assert PanelValid(c.panels[f.panel]); }
  }

  lemma PanelValidIfNothingWrong(c: Config, p: nat)
    requires p < |c.panels| && forall f :: !Wrong(c, f)
    ensures PanelValid(c.panels[p])
  {
    assert !Wrong(c, OfOverride(p)) && !Wrong(c, OfBinding(p)) && !Wrong(c, OfName(p)) && !Wrong(c, OfSlots(p));
    forall s | 0 <= s < |c.panels[p].slots| && c.panels[p].slots[s].Some?
      ensures WidgetFits(c.panels[p].template, s, c.panels[p].slots[s].value)
    {
      assert !Wrong(c, OfSlot(p, s));
    }
  }

  // ---------------------------------------------------------------- validation

  predicate Header(f: Field) {
    f.OfBrightness? || f.OfSchema? || f.OfClock? || f.OfPanels?
  }

  method ValidateHeader(c: Config) returns (errors: seq<Field>)
    ensures forall f :: f in errors <==> Header(f) && Wrong(c, f)
  {
    errors := [];
    if !c.brightness.Valid() {
      errors := errors + [OfBrightness];
    }
    if c.schemaVersion != 2 {
      errors := errors + [OfSchema];
    }
    if c.clockIntensity == 0 {
      errors := errors + [OfClock];
    }
    if !(1 <= |c.panels| <= 2) {
      errors := errors + [OfPanels];
    }
  }

  method ValidateSlots(c: Config, p: nat) returns (errors: seq<Field>)
    requires p < |c.panels|
    ensures forall f :: f in errors <==> f.OfSlot? && f.panel == p && Wrong(c, f)
  {
    var panel := c.panels[p];
    errors := [];
    for s := 0 to |panel.slots|
      invariant forall f :: f in errors <==> f.OfSlot? && f.panel == p && f.slot < s && Wrong(c, f)
    {
      var slot := panel.slots[s];
      if slot.Some? && !WidgetFits(panel.template, s, slot.value) {
        errors := errors + [OfSlot(p, s)];
      }
    }
  }

  /** The lengths and the sets of earlier names and bindings decide. */
  method ValidatePanel(c: Config, p: nat, names: set<string>, bindings: set<string>)
    returns (errors: seq<Field>, names': set<string>, bindings': set<string>)
    requires p < |c.panels|
    requires forall n :: n in names <==> NameLength(n) && NameTaken(c, p, n)
    requires forall b :: b in bindings <==> BindingLength(b) && BindingTaken(c, p, b)
    ensures forall f :: f in errors <==> !Header(f) && !f.OfSlot? && f.panel == p && Wrong(c, f)
    ensures forall n :: n in names' <==> NameLength(n) && NameTaken(c, p + 1, n)
    ensures forall b :: b in bindings' <==> BindingLength(b) && BindingTaken(c, p + 1, b)
  {
    var panel := c.panels[p];
    errors, names', bindings' := [], names, bindings;
    if panel.brightnessOverride.Some? && !panel.brightnessOverride.value.Valid() {
      errors := errors + [OfOverride(p)];
    }
    if panel.binding.Some? {
      if !BindingLength(panel.binding.value) || panel.binding.value in bindings {
        errors := errors + [OfBinding(p)];
      } else {
        bindings' := bindings' + {panel.binding.value};
      }
    }
    if !NameLength(panel.name) || panel.name in names {
      errors := errors + [OfName(p)];
    } else {
      names' := names' + {panel.name};
    }
    if |panel.slots| != |Presentations(panel.template)| {
      errors := errors + [OfSlots(p)];
    }
  }

  /**
   Accumulates an error for each wrong field: all of them, nothing else. The list
   is empty exactly for a valid configuration.
   */
  method Validate(c: Config) returns (errors: seq<Field>)
    ensures forall f :: f in errors <==> Wrong(c, f)
    ensures errors == [] <==> c.Valid()
  {
    errors := ValidateHeader(c);
    var names: set<string> := {};
    var bindings: set<string> := {};
    for p := 0 to |c.panels|
      invariant forall f :: f in errors <==> (Header(f) || f.panel < p) && Wrong(c, f)
      invariant forall n :: n in names <==> NameLength(n) && NameTaken(c, p, n)
      invariant forall b :: b in bindings <==> BindingLength(b) && BindingTaken(c, p, b)
    {
      var ofPanel, names', bindings' := ValidatePanel(c, p, names, bindings);
      var ofSlots := ValidateSlots(c, p);
      errors, names, bindings := errors + ofPanel + ofSlots, names', bindings';
    }
    ValidIffNothingWrong(c);
    assert errors != [] ==> errors[0] in errors;
  }

  lemma DefaultIsValid()
    ensures Default().config.Valid()
  {
    var panels := DefaultPanels();
    assert "left"[0] != "right"[0];
    forall p | 0 <= p < |panels| ensures PanelValid(panels[p]) {
    }
  }
}
