/** End to end: what is on the panels, from the clock, the readings and the configuration. */
module ShownFrames {
  import opened Basics
  import opened Protocol
  import opened Assistant
  import opened Layout
  import opened Configuration
  import opened RenderLaws
  import opened Snapshot
  import opened Routing
  import Poc = PocRenderer

  /** The battery as the proof of concept takes it: a missing percentage is its zero. */
  function BatteryPercent(power: PowerReading): real {
    if power.percent.Some? then power.percent.value as real else 0.0
  }

  /**
   A snapshot of the default configuration shows the proof of concept's panels: this
   hour over this minute and the battery on the left; on the right the context of the
   session selected for Claude, without quotas.
   */
  lemma DefaultSnapshotIsPoc(sequence: u32, hour: byte, minute: byte, power: PowerReading,
                             assistants: AssistantState, preview: bool)
    ensures var s := Built(sequence, hour, minute, power, assistants, Default().config, preview);
      var followed := Selected(assistants.sessions, Claude, None);
      && s.frame.pixels == Poc.Machine(Poc.MachineState(hour, minute, BatteryPercent(power)))
      && |s.panels| == 2 && s.panels[0].frame == s.frame
      && s.panels[1].frame.pixels
         == Poc.Claude(Poc.ClaudeState(None, None, PercentOf(followed), followed.Some? && followed.value.busy,
                                       "normal", "normal"))
      && s.panels[0].brightness == s.panels[1].brightness == Some(32)
      && s.panels[0].binding.None? && s.panels[1].binding.None?
  {
    var r := ReadingsAt(hour, minute, power, assistants.sessions, Default().config);
    MachinePanelsAgree(r);
    ClaudePanelsAgree(r);
  }

  /** Off, or with limits that make no sense: no level at all; otherwise the level set by hand. */
  predicate Unlit(b: Brightness) {
    b.off || b.minimum == 0 || b.minimum > b.maximum || b.manual < b.minimum || b.manual > b.maximum
  }

  /**
   The i-th panel of a snapshot has the i-th panel's name and location and the level of
   its own brightness or, without one, of the global one; switched off, it is dark.
   */
  lemma PanelsAsConfigured(sequence: u32, hour: byte, minute: byte, power: PowerReading,
                           assistants: AssistantState, config: Config, preview: bool, i: nat)
    requires i < |config.panels|
    ensures var s := Built(sequence, hour, minute, power, assistants, config, preview);
      var p, own := config.panels[i], config.panels[i].brightnessOverride;
      && |s.panels| == |config.panels| && s.panels[0].frame == s.frame
      && s.panels[i].name == p.name && s.panels[i].binding == p.binding
      && s.panels[i].brightness
         == (var b := if own.None? then config.brightness else own.value;
             if Unlit(b) then None else Some(b.manual))
      && (s.panels[i].brightness.None? ==> forall k :: 0 <= k < PIXELS ==> s.panels[i].frame.pixels[k] == 0)
  {
  }

  /**
   The port at a panel's location is given the frame and the level the snapshot has for
   that panel, if the configuration has not changed since.
   */
  lemma RoutedIsSnapshot(sequence: u32, hour: byte, minute: byte, power: PowerReading, assistants: AssistantState,
                         config: Config, preview: bool, devices: seq<Device>, i: nat, port: string)
    requires config.Valid() && DistinctPorts(devices)
    requires i < |config.panels| && IsAt(config.panels[i], devices, port)
    ensures var s := Built(sequence, hour, minute, power, assistants, config, preview);
      NormalFrame(port, config, s, devices) == Some(s.panels[i].frame)
      && NormalLevel(port, config, devices) == s.panels[i].brightness
  {
    var s := Built(sequence, hour, minute, power, assistants, config, preview);
    PortShowsItsPanel(config, s, devices, config.panels[i], port);
    assert RoutedReadings(config, s) == ReadingsAt(hour, minute, power, assistants.sessions, config);
  }
}
