/**
 The snapshot the clock loop sends every second: how it is put together, what the
 client insists on, and how long its message is.
 */
module Snapshot {
  import opened Basics
  import opened Protocol
  import opened Assistant
  import opened Feeds
  import opened Layout
  import opened Configuration
  import opened Json
  import ConfigFile

  datatype Health = Health(provider: Provider, status: string, detail: string)

  datatype AssistantState = AssistantState(sessions: seq<Session>, health: seq<Health>)

  datatype PowerStatus = Available | Unavailable | Error

  datatype PowerReading = PowerReading(
    status: PowerStatus, percent: Option<byte>, charging: Option<bool>, ac: Option<bool>, updatedAt: string)

  datatype PanelFrame = PanelFrame(brightness: Option<byte>, name: string, frame: Frame, binding: Option<string>)

  datatype Snapshot = Snapshot(
    assistants: AssistantState, preview: bool, panels: seq<PanelFrame>, power: Option<PowerReading>,
    sequence: u32, hour: byte, minute: byte, frame: Frame)

  // ------------------------------------------------------------- the feed state

  const SCAN_DETAIL :=
    "Metadata-only feeds; main sessions only; 60-second heartbeat expiry. Missing pins stay unavailable. "
    + "Errors/limits affect only this provider."

  const FAILED_DETAIL := "Metadata scan failed or timed out; unrelated widgets remain active."

  const NO_FEEDS := AssistantState([], [])

  const FAILED_SCAN := AssistantState([],
    [Health(Claude, "error", FAILED_DETAIL), Health(OpencodeOpenai, "error", FAILED_DETAIL)])

  function ScanState(claude: Directory, opencode: Directory, now: u64): AssistantState {
    AssistantState(Scanned(claude, opencode, now),
      [Health(Claude, Status(Collect(claude, Claude, now)), SCAN_DETAIL),
       Health(OpencodeOpenai, Status(Collect(opencode, OpencodeOpenai, now)), SCAN_DETAIL)])
  }

  /** Everything the feed task ever publishes, with the clock it last scanned at. */
  ghost predicate FromFeedTask(state: AssistantState, now: u64) {
    || state == NO_FEEDS || state == FAILED_SCAN
    || exists claude: Directory, opencode: Directory :: state == ScanState(claude, opencode, now)
  }

  // ------------------------------------------------------------- the clock loop

  function ReadingsAt(hour: byte, minute: byte, power: PowerReading, sessions: seq<Session>, config: Config): Readings {
    Readings(sessions, config.clockIntensity, hour, minute,
      if power.percent.Some? then Some(Finite(power.percent.value as real)) else None, None, None, None, None)
  }

  function Drawn(panel: PanelLayout, r: Readings, global: Brightness): Frame {
    Frame(WIDTH, HEIGHT, RenderConfigured(panel, r, global))
  }

  function FrameOf(panel: PanelLayout, r: Readings, global: Brightness): PanelFrame {
    PanelFrame(Effective(global, panel).Level(), panel.name, Drawn(panel, r, global), panel.binding)
  }

  function Built(sequence: u32, hour: byte, minute: byte, power: PowerReading, assistants: AssistantState,
                 config: Config, preview: bool): Snapshot
    requires config.panels != []
  {
    var r := ReadingsAt(hour, minute, power, assistants.sessions, config);
    Snapshot(assistants, preview,
      seq(|config.panels|, i requires 0 <= i < |config.panels| => FrameOf(config.panels[i], r, config.brightness)),
      Some(power), sequence, hour, minute, Drawn(config.panels[0], r, config.brightness))
  }

  /** What subscribers get before the clock loop's first turn. */
  function First(hour: byte, minute: byte): Option<Snapshot> {
    var clock := RenderClock(hour, minute);
    if clock.None? then None else Some(Snapshot(NO_FEEDS, false, [], None, 0, hour, minute, clock.value))
  }

  class ClockLoop {
    var sequence: u32

    constructor ()
      ensures sequence == 0
    {
      sequence := 0;
    }

    method Draw(panel: PanelLayout, r: Readings, global: Brightness) returns (frame: Frame)
      ensures frame == Drawn(panel, r, global)
    {
      if Effective(global, panel).Level().None? {
        return Blank();
      }
      frame := RenderPanel(panel, r);
    }

    /** One turn: the sequence number wraps, the snapshot holds the latest of everything. */
    method Tick(hour: byte, minute: byte, power: PowerReading, assistants: AssistantState,
                config: Config, preview: bool) returns (s: Snapshot)
      requires config.panels != []
      modifies this
      ensures sequence == (old(sequence) + 1) % 0x1_0000_0000
      ensures s == Built(sequence, hour, minute, power, assistants, config, preview)
    {
      sequence := (sequence + 1) % 0x1_0000_0000;
      var readings := ReadingsAt(hour, minute, power, assistants.sessions, config);
      var first := Draw(config.panels[0], readings, config.brightness);
      var panels: seq<PanelFrame> := [];
      for i := 0 to |config.panels|
        invariant |panels| == i && sequence == (old(sequence) + 1) % 0x1_0000_0000
        invariant forall j :: 0 <= j < i ==> panels[j] == FrameOf(config.panels[j], readings, config.brightness)
      {
        var panel := config.panels[i];
        var frame := Draw(panel, readings, config.brightness);
        panels := panels + [PanelFrame(Effective(config.brightness, panel).Level(), panel.name, frame, panel.binding)];
      }
      s := Snapshot(assistants, preview, panels, Some(power), sequence, hour, minute, first);
    }
  }

  // ----------------------------------------------------- the client's acceptance

  /** The largest date a JavaScript client can hold. */
  const MAX_DATE := 8_640_000_000_000_000

  predicate SessionAccepted(s: Session) {
    && SafeId(s.sessionId) && SafeId(s.instanceId)
    && (s.contextPercent.Some? ==> s.contextPercent.value <= 1000)
    && s.lastActivity <= MAX_DATE && s.heartbeat <= MAX_DATE
  }

  predicate PanelAccepted(p: PanelFrame) {
    p.frame.Valid() && NameLength(p.name)
  }

  /** What `next_frame` passes on to the user interface. */
  predicate Accepted(s: Snapshot) {
    && s.frame.Valid() && s.hour < 24 && s.minute < 60 && |s.panels| <= 2 && |s.assistants.sessions| <= 64
    && (forall i :: 0 <= i < |s.assistants.sessions| ==> SessionAccepted(s.assistants.sessions[i]))
    && (forall i :: 0 <= i < |s.panels| ==> PanelAccepted(s.panels[i]))
  }

  lemma PublishedSessions(state: AssistantState, now: u64)
    requires FromFeedTask(state, now)
    ensures |state.sessions| <= 64
    ensures forall i :: 0 <= i < |state.sessions| ==>
      RecordOk(state.sessions[i], state.sessions[i].provider, now)
  {
    if state != NO_FEEDS && state != FAILED_SCAN {
      var claude, opencode :| state == ScanState(claude, opencode, now);
      PublishedContract(Collect(claude, Claude, now).sessions);
      PublishedContract(Collect(opencode, OpencodeOpenai, now).sessions);
      forall i | 0 <= i < |state.sessions|
        ensures RecordOk(state.sessions[i], state.sessions[i].provider, now)
      {
        var s := state.sessions[i];
        if s in Published(Collect(claude, Claude, now).sessions) {
          PublishedIsOk(claude, Claude, now, s);
        } else {
          assert s in Published(Collect(opencode, OpencodeOpenai, now).sessions);
          PublishedIsOk(opencode, OpencodeOpenai, now, s);
        }
      }
    }
  }

  predicate DatesHeld(sessions: seq<Session>) {
    forall i :: 0 <= i < |sessions| ==> sessions[i].lastActivity <= MAX_DATE && sessions[i].heartbeat <= MAX_DATE
  }

  /**
   A snapshot the clock loop builds from a valid configuration passes the client's
   check exactly when the client can hold its dates; and it can whenever the clock
   the feeds were scanned at is five seconds below the largest date.
   */
  lemma AcceptedIffDatesHeld(sequence: u32, hour: byte, minute: byte, power: PowerReading,
                             assistants: AssistantState, config: Config, preview: bool, now: u64)
    requires config.Valid() && hour < 24 && minute < 60 && FromFeedTask(assistants, now)
    ensures var s := Built(sequence, hour, minute, power, assistants, config, preview);
      && (Accepted(s) <==> DatesHeld(assistants.sessions))
      && (now + 5000 <= MAX_DATE ==> Accepted(s))
  {
    PublishedSessions(assistants, now);
    forall i | 0 <= i < |config.panels| ensures NameLength(config.panels[i].name) {
      assert PanelValid(config.panels[i]);
    }
    var s := Built(sequence, hour, minute, power, assistants, config, preview);
    var sessions := assistants.sessions;
    assert forall i :: 0 <= i < |sessions| ==>
      (SessionAccepted(sessions[i]) <==> sessions[i].lastActivity <= MAX_DATE && sessions[i].heartbeat <= MAX_DATE);
  }

  // ------------------------------------------------------------- the message

  const MAX_MESSAGE := 65536

  function OptionalBoolean(b: Option<bool>): (t: string)
    ensures |t| <= 5
  {
    if b.Some? then Boolean(b.value) else "null"
  }

  function PowerStatusText(s: PowerStatus): (t: string)
    ensures |t| <= 13
  {
    match s
    case Available => "\"available\""
    case Unavailable => "\"unavailable\""
    case Error => "\"error\""
  }

  function SessionText(s: Session): string {
    Braces(
      (Pair("provider", ConfigFile.ProviderText(s.provider)) + "," + Pair("instance_id", Quoted(s.instanceId)) + ","
       + Pair("session_id", Quoted(s.sessionId)) + ","
       + Pair("context_percent", OptionalNumber(s.contextPercent))) + ","
      + (Pair("busy", Boolean(s.busy)) + "," + Pair("last_activity_ms", Decimal(s.lastActivity)) + ","
         + Pair("heartbeat_ms", Decimal(s.heartbeat))))
  }

  function HealthText(h: Health): string {
    Braces(Pair("provider", ConfigFile.ProviderText(h.provider)) + "," + Pair("status", Quoted(h.status)) + ","
           + Pair("detail", Quoted(h.detail)))
  }

  function SessionTexts(a: AssistantState): seq<string> {
    seq(|a.sessions|, i requires 0 <= i < |a.sessions| => SessionText(a.sessions[i]))
  }

  function HealthTexts(a: AssistantState): seq<string> {
    seq(|a.health|, i requires 0 <= i < |a.health| => HealthText(a.health[i]))
  }

  function AssistantsText(a: AssistantState): string {
    Braces(Pair("sessions", Brackets(SessionTexts(a))) + "," + Pair("health", Brackets(HealthTexts(a))))
  }

  function PowerText(p: PowerReading): string {
    Braces(
      (Pair("status", PowerStatusText(p.status)) + "," + Pair("percent", ConfigFile.OptionalByte(p.percent)) + ","
       + Pair("charging", OptionalBoolean(p.charging))) + ","
      + (Pair("ac", OptionalBoolean(p.ac)) + "," + Pair("updated_at", Quoted(p.updatedAt))))
  }

  function OptionalPower(p: Option<PowerReading>): string {
    if p.Some? then PowerText(p.value) else "null"
  }

  function PixelTexts(f: Frame): seq<string> {
    seq(|f.pixels|, i requires 0 <= i < |f.pixels| => Decimal(f.pixels[i]))
  }

  function FrameText(f: Frame): string {
    Braces(Pair("width", Decimal(f.width)) + "," + Pair("height", Decimal(f.height)) + ","
           + Pair("pixels", Brackets(PixelTexts(f))))
  }

  function PanelText(p: PanelFrame): string {
    Braces(Pair("brightness", ConfigFile.OptionalByte(p.brightness)) + "," + Pair("name", Quoted(p.name)) + ","
           + Pair("frame", FrameText(p.frame)) + "," + Pair("binding", OptionalText(p.binding)))
  }

  function PanelTexts(panels: seq<PanelFrame>): seq<string> {
    seq(|panels|, i requires 0 <= i < |panels| => PanelText(panels[i]))
  }

  function UpperText(assistants: string, preview: bool, panels: string): string {
    Pair("assistants", assistants) + "," + Pair("preview", Boolean(preview)) + "," + Pair("panels", panels)
  }

  function Lower(s: Snapshot): string {
    Pair("power", OptionalPower(s.power)) + "," + Pair("sequence", Decimal(s.sequence)) + ","
    + Pair("hour", Decimal(s.hour)) + "," + Pair("minute", Decimal(s.minute)) + "," + Pair("frame", FrameText(s.frame))
  }

  function Envelope(upper: string, lower: string): string {
    Braces(Pair("type", Quoted("frame")) + "," + Pair("snapshot", Braces(upper + "," + lower)))
  }

  /** `Event::Frame { snapshot }` as `serde_json::to_vec` writes it. */
  function MessageText(s: Snapshot): string {
    Envelope(UpperText(AssistantsText(s.assistants), s.preview, Brackets(PanelTexts(s.panels))), Lower(s))
  }

  lemma LongNumber(n: u64)
    ensures |Decimal(n)| <= 20
  {
    Tens();
    DecimalLength(n, 20);
  }

  lemma PercentLength(p: Option<u16>)
    ensures |OptionalNumber(p)| <= 5
  {
    if p.Some? {
      Tens();
      DecimalLength(p.value, 5);
    }
  }

  lemma SessionLength(s: Session)
    requires SafeId(s.instanceId) && SafeId(s.sessionId)
    ensures |SessionText(s)| <= 450
  {
    SafeIdLength(s.instanceId);
    SafeIdLength(s.sessionId);
    LongNumber(s.lastActivity);
    LongNumber(s.heartbeat);
    PercentLength(s.contextPercent);
  }

  lemma HealthLength(h: Health)
    requires |h.status| <= 20 && |h.detail| <= 160
    ensures |HealthText(h)| <= 1200
  {
    EscapedLength(h.status);
    EscapedLength(h.detail);
  }

  lemma DetailLengths()
    ensures |SCAN_DETAIL| <= 160 && |FAILED_DETAIL| <= 160
  {
  }

  lemma StatusLength(found: Found)
    ensures |Status(found)| <= 20
  {
  }

  lemma PublishedHealth(state: AssistantState, now: u64)
    requires FromFeedTask(state, now)
    ensures |state.health| <= 2
    ensures forall i :: 0 <= i < |state.health| ==> |state.health[i].status| <= 20 && |state.health[i].detail| <= 160
  {
    DetailLengths();
    if state != NO_FEEDS && state != FAILED_SCAN {
      var claude, opencode :| state == ScanState(claude, opencode, now);
      StatusLength(Collect(claude, Claude, now));
      StatusLength(Collect(opencode, OpencodeOpenai, now));
    }
  }

  lemma AssistantsLength(state: AssistantState, now: u64)
    requires FromFeedTask(state, now)
    ensures |AssistantsText(state)| <= 31_400
  {
    PublishedSessions(state, now);
    var sessions := SessionTexts(state);
    forall i | 0 <= i < |sessions| ensures |sessions[i]| <= 450 {
      SessionLength(state.sessions[i]);
    }
    BracketsLength(sessions, 64, 450);
    PublishedHealth(state, now);
    var health := HealthTexts(state);
    forall i | 0 <= i < |health| ensures |health[i]| <= 1200 {
      HealthLength(state.health[i]);
    }
    BracketsLength(health, 2, 1200);
  }

  lemma PowerLength(p: PowerReading)
    requires |p.updatedAt| <= 40
    ensures |PowerText(p)| <= 400
  {
    EscapedLength(p.updatedAt);
  }

  lemma FrameLength(f: Frame)
    requires f.Valid()
    ensures |FrameText(f)| <= 1300
  {
    var items := PixelTexts(f);
    forall i | 0 <= i < |items| ensures |items[i]| <= 3 {
      ConfigFile.ByteLength(f.pixels[i]);
    }
    BracketsLength(items, PIXELS, 3);
    ConfigFile.ByteLength(f.width);
    ConfigFile.ByteLength(f.height);
  }

  lemma PanelLength(p: PanelFrame)
    requires p.frame.Valid() && NameLength(p.name) && (p.binding.Some? ==> BindingLength(p.binding.value))
    ensures |PanelText(p)| <= 7800
  {
    FrameLength(p.frame);
    EscapedLength(p.name);
    if p.binding.Some? { EscapedLength(p.binding.value); }
  }

  lemma PanelsLength(panels: seq<PanelFrame>)
    requires |panels| <= 2
    requires forall i :: 0 <= i < |panels| ==>
      panels[i].frame.Valid() && NameLength(panels[i].name)
      && (panels[i].binding.Some? ==> BindingLength(panels[i].binding.value))
    ensures |Brackets(PanelTexts(panels))| <= 16_000
  {
    var items := PanelTexts(panels);
    forall i | 0 <= i < |items| ensures |items[i]| <= 7800 {
      PanelLength(panels[i]);
    }
    BracketsLength(items, 2, 7800);
  }

  lemma LowerLength(s: Snapshot)
    requires s.frame.Valid() && (s.power.Some? ==> |s.power.value.updatedAt| <= 40)
    ensures |Lower(s)| <= 2000
  {
    if s.power.Some? { PowerLength(s.power.value); }
    Tens();
    DecimalLength(s.sequence, 10);
    ConfigFile.ByteLength(s.hour);
    ConfigFile.ByteLength(s.minute);
    FrameLength(s.frame);
  }

  lemma BuiltPanels(sequence: u32, hour: byte, minute: byte, power: PowerReading,
                    assistants: AssistantState, config: Config, preview: bool)
    requires config.Valid()
    ensures |Brackets(PanelTexts(Built(sequence, hour, minute, power, assistants, config, preview).panels))| <= 16_000
  {
    var panels := Built(sequence, hour, minute, power, assistants, config, preview).panels;
    forall i | 0 <= i < |panels|
      ensures panels[i].frame.Valid() && NameLength(panels[i].name)
      ensures panels[i].binding.Some? ==> BindingLength(panels[i].binding.value)
    {
      assert PanelValid(config.panels[i]);
    }
    PanelsLength(panels);
  }

  lemma EnvelopeLength(assistants: string, preview: bool, panels: string, lower: string)
    requires |assistants| <= 31_400 && |panels| <= 16_000 && |lower| <= 2000
    ensures 0 < |Envelope(UpperText(assistants, preview, panels), lower)| <= MAX_MESSAGE
  {
    EscapedLength("frame");
  }

  /**
   Every snapshot the clock loop builds fits into one message, whatever the clock
   says, if the time stamp of the power reading has at most 40 bytes.
   */
  lemma EverySnapshotFits(sequence: u32, hour: byte, minute: byte, power: PowerReading,
                          assistants: AssistantState, config: Config, preview: bool, now: u64)
    requires config.Valid() && FromFeedTask(assistants, now) && |power.updatedAt| <= 40
    ensures 0 < |MessageText(Built(sequence, hour, minute, power, assistants, config, preview))| <= MAX_MESSAGE
  {
    AssistantsLength(assistants, now);
    BuiltPanels(sequence, hour, minute, power, assistants, config, preview);
    var s := Built(sequence, hour, minute, power, assistants, config, preview);
    LowerLength(s);
    EnvelopeLength(AssistantsText(s.assistants), s.preview, Brackets(PanelTexts(s.panels)), Lower(s));
  }

  /** The first snapshot exists for every time of day, fits and is accepted. */
  lemma FirstSnapshotIsFine(hour: byte, minute: byte)
    requires hour < 24 && minute < 60
    ensures First(hour, minute).Some?
    ensures Accepted(First(hour, minute).value) && 0 < |MessageText(First(hour, minute).value)| <= MAX_MESSAGE
  {
    var s := First(hour, minute).value;
    AssistantsLength(s.assistants, 0);
    PanelsLength(s.panels);
    LowerLength(s);
    EnvelopeLength(AssistantsText(s.assistants), s.preview, Brackets(PanelTexts(s.panels)), Lower(s));
  }
}
