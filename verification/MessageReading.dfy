/** The message says which snapshot it carries: different snapshots are never written alike. */
module MessageReading {
  import opened Basics
  import opened Protocol
  import opened Assistant
  import opened Json
  import opened JsonReading
  import opened Snapshot
  import ConfigFile
  import FileReading

  // ----------------------------------------------------------- groups of pairs

  function Name(key: string): string {
    "\"" + key + "\":"
  }

  function TwoPairs(k: string, x: string, l: string, y: string): string {
    Pair(k, x) + "," + Pair(l, y)
  }

  function ThreePairs(k: string, x: string, l: string, y: string, m: string, z: string): string {
    Pair(k, x) + "," + Pair(l, y) + "," + Pair(m, z)
  }

  function FourPairs(k: string, w: string, l: string, x: string, m: string, y: string, n: string, z: string): string {
    Pair(k, w) + "," + Pair(l, x) + "," + Pair(m, y) + "," + Pair(n, z)
  }

  function FivePairs(j: string, v: string, k: string, w: string, l: string, x: string, m: string, y: string,
                     n: string, z: string): string
  {
    Pair(j, v) + "," + Pair(k, w) + "," + Pair(l, x) + "," + Pair(m, y) + "," + Pair(n, z)
  }

  lemma TwoPairsAreRead(k: string, x: string, x': string, l: string, y: string, y': string)
    requires Apart(x, x') && Apart(y, y')
    ensures Reads((x, y), (x', y'), TwoPairs(k, x, l, y), TwoPairs(k, x', l, y'))
  {
    var names := [Name(k), Name(l)];
    TwoAreRead(names, x, y, x', y');
    assert TwoPairs(k, x, l, y) == Two(names, [x, y]) && TwoPairs(k, x', l, y') == Two(names, [x', y']);
  }

  lemma ThreePairsAreRead(k: string, x: string, x': string, l: string, y: string, y': string,
                          m: string, z: string, z': string)
    requires Apart(x, x') && Apart(y, y') && Apart(z, z')
    ensures Reads((x, y, z), (x', y', z'), ThreePairs(k, x, l, y, m, z), ThreePairs(k, x', l, y', m, z'))
  {
    var names := [Name(k), Name(l), Name(m)];
    ThreeAreRead(names, x, y, z, x', y', z');
    assert ThreePairs(k, x, l, y, m, z) == Three(names, [x, y, z]);
    assert ThreePairs(k, x', l, y', m, z') == Three(names, [x', y', z']);
  }

  lemma FourPairsAreRead(k: string, w: string, w': string, l: string, x: string, x': string,
                         m: string, y: string, y': string, n: string, z: string, z': string)
    requires Apart(w, w') && Apart(x, x') && Apart(y, y') && Apart(z, z')
    ensures Reads((w, x, y, z), (w', x', y', z'),
                  FourPairs(k, w, l, x, m, y, n, z), FourPairs(k, w', l, x', m, y', n, z'))
  {
    var names := [Name(k), Name(l), Name(m), Name(n)];
    FourAreRead(names, w, x, y, z, w', x', y', z');
    assert FourPairs(k, w, l, x, m, y, n, z) == Four(names, [w, x, y, z]);
    assert FourPairs(k, w', l, x', m, y', n, z') == Four(names, [w', x', y', z']);
  }

  lemma FivePairsAreRead(j: string, v: string, v': string, k: string, w: string, w': string,
                         l: string, x: string, x': string, m: string, y: string, y': string,
                         n: string, z: string, z': string)
    requires Apart(v, v') && Apart(w, w') && Apart(x, x') && Apart(y, y') && Apart(z, z')
    ensures Reads((v, w, x, y, z), (v', w', x', y', z'),
                  FivePairs(j, v, k, w, l, x, m, y, n, z), FivePairs(j, v', k, w', l, x', m, y', n, z'))
  {
    var names := [Name(j), Name(k), Name(l), Name(m), Name(n)];
    FiveAreRead(names, v, w, x, y, z, v', w', x', y', z');
    assert FivePairs(j, v, k, w, l, x, m, y, n, z) == Five(names, [v, w, x, y, z]);
    assert FivePairs(j, v', k, w', l, x', m, y', n, z') == Five(names, [v', w', x', y', z']);
  }

  lemma BracesAreRead(x: string, y: string)
    requires Apart(x, y)
    ensures Reads(x, y, Braces(x), Braces(y))
  {
    InsideIsRead("{", "}", x, y);
  }

  // ---------------------------------------------------------------- the parts

  lemma OptionalBooleanIsRead(a: Option<bool>, b: Option<bool>)
    ensures Reads(a, b, OptionalBoolean(a), OptionalBoolean(b))
  {
    if a != b {
      DifferAt(OptionalBoolean(a), OptionalBoolean(b), 0);
    }
  }

  lemma StatusIsRead(a: PowerStatus, b: PowerStatus)
    ensures Reads(a, b, PowerStatusText(a), PowerStatusText(b))
  {
    if a != b {
      DifferAt(PowerStatusText(a), PowerStatusText(b), 1);
    }
  }

  function SessionUpper(s: Session): string {
    FourPairs("provider", ConfigFile.ProviderText(s.provider), "instance_id", Quoted(s.instanceId),
              "session_id", Quoted(s.sessionId), "context_percent", OptionalNumber(s.contextPercent))
  }

  function SessionLower(s: Session): string {
    ThreePairs("busy", Boolean(s.busy), "last_activity_ms", Decimal(s.lastActivity),
               "heartbeat_ms", Decimal(s.heartbeat))
  }

  lemma SessionUpperIsRead(a: Session, b: Session)
    ensures Reads((a.provider, a.instanceId, a.sessionId, a.contextPercent),
                  (b.provider, b.instanceId, b.sessionId, b.contextPercent), SessionUpper(a), SessionUpper(b))
  {
    FileReading.ProviderIsRead(a.provider, b.provider);
    TextIsRead(a.instanceId, b.instanceId);
    TextIsRead(a.sessionId, b.sessionId);
    OptionalNumberIsRead(a.contextPercent, b.contextPercent);
    FourPairsAreRead("provider", ConfigFile.ProviderText(a.provider), ConfigFile.ProviderText(b.provider),
                     "instance_id", Quoted(a.instanceId), Quoted(b.instanceId),
                     "session_id", Quoted(a.sessionId), Quoted(b.sessionId),
                     "context_percent", OptionalNumber(a.contextPercent), OptionalNumber(b.contextPercent));
  }

  lemma SessionLowerIsRead(a: Session, b: Session)
    ensures Reads((a.busy, a.lastActivity, a.heartbeat), (b.busy, b.lastActivity, b.heartbeat),
                  SessionLower(a), SessionLower(b))
  {
    BooleanIsRead(a.busy, b.busy);
    NumberIsRead(a.lastActivity, b.lastActivity);
    NumberIsRead(a.heartbeat, b.heartbeat);
    ThreePairsAreRead("busy", Boolean(a.busy), Boolean(b.busy),
                      "last_activity_ms", Decimal(a.lastActivity), Decimal(b.lastActivity),
                      "heartbeat_ms", Decimal(a.heartbeat), Decimal(b.heartbeat));
  }

  lemma SessionIsRead(a: Session, b: Session)
    ensures Reads(a, b, SessionText(a), SessionText(b))
  {
    SessionUpperIsRead(a, b);
    SessionLowerIsRead(a, b);
    GroupsAreRead(SessionUpper(a), SessionLower(a), SessionUpper(b), SessionLower(b));
    BracesAreRead(SessionUpper(a) + "," + SessionLower(a), SessionUpper(b) + "," + SessionLower(b));
  }

  lemma HealthIsRead(a: Health, b: Health)
    ensures Reads(a, b, HealthText(a), HealthText(b))
  {
    FileReading.ProviderIsRead(a.provider, b.provider);
    TextIsRead(a.status, b.status);
    TextIsRead(a.detail, b.detail);
    var x := ThreePairs("provider", ConfigFile.ProviderText(a.provider), "status", Quoted(a.status),
                        "detail", Quoted(a.detail));
    var y := ThreePairs("provider", ConfigFile.ProviderText(b.provider), "status", Quoted(b.status),
                        "detail", Quoted(b.detail));
    ThreePairsAreRead("provider", ConfigFile.ProviderText(a.provider), ConfigFile.ProviderText(b.provider),
                      "status", Quoted(a.status), Quoted(b.status), "detail", Quoted(a.detail), Quoted(b.detail));
    BracesAreRead(x, y);
  }

  /** What an array of texts of these values tells. */
  ghost predicate ArrayTells<T>(a: seq<T>, b: seq<T>, v: seq<string>, w: seq<string>) {
    && |v| == |a| && |w| == |b|
    && (forall i :: 0 <= i < |v| ==> v[i] != "" && v[i][0] != ']')
    && (forall i :: 0 <= i < |w| ==> w[i] != "" && w[i][0] != ']')
    && forall i :: 0 <= i < |v| && i < |w| ==> Reads(a[i], b[i], v[i], w[i])
  }

  lemma ArrayIsRead<T>(a: seq<T>, b: seq<T>, v: seq<string>, w: seq<string>)
    requires ArrayTells(a, b, v, w)
    ensures Reads(a, b, Brackets(v), Brackets(w))
  {
    BracketsIsRead(v, w);
    if v == w {
      assert forall i :: 0 <= i < |a| ==> v[i] == w[i];
      assert a == b;
    }
  }

  lemma SessionsTell(a: AssistantState, b: AssistantState)
    ensures ArrayTells(a.sessions, b.sessions, SessionTexts(a), SessionTexts(b))
  {
    var v, w := SessionTexts(a), SessionTexts(b);
    forall i | 0 <= i < |v| && i < |w| ensures Reads(a.sessions[i], b.sessions[i], v[i], w[i]) {
      SessionIsRead(a.sessions[i], b.sessions[i]);
    }
  }

  lemma HealthsTell(a: AssistantState, b: AssistantState)
    ensures ArrayTells(a.health, b.health, HealthTexts(a), HealthTexts(b))
  {
    var v, w := HealthTexts(a), HealthTexts(b);
    forall i | 0 <= i < |v| && i < |w| ensures Reads(a.health[i], b.health[i], v[i], w[i]) {
      HealthIsRead(a.health[i], b.health[i]);
    }
  }

  function AssistantsBraces(sessions: string, health: string): string {
    Braces(TwoPairs("sessions", sessions, "health", health))
  }

  lemma AssistantsBracesAreRead(a: AssistantState, b: AssistantState, x: string, x': string, y: string, y': string)
    requires Reads(a.sessions, b.sessions, x, x') && Reads(a.health, b.health, y, y')
    ensures Reads(a, b, AssistantsBraces(x, y), AssistantsBraces(x', y'))
  {
    TwoPairsAreRead("sessions", x, x', "health", y, y');
    BracesAreRead(TwoPairs("sessions", x, "health", y), TwoPairs("sessions", x', "health", y'));
  }

  lemma AssistantsAreRead(a: AssistantState, b: AssistantState)
    ensures Reads(a, b, AssistantsText(a), AssistantsText(b))
  {
    SessionsTell(a, b);
    ArrayIsRead(a.sessions, b.sessions, SessionTexts(a), SessionTexts(b));
    HealthsTell(a, b);
    ArrayIsRead(a.health, b.health, HealthTexts(a), HealthTexts(b));
    AssistantsBracesAreRead(a, b, Brackets(SessionTexts(a)), Brackets(SessionTexts(b)),
                            Brackets(HealthTexts(a)), Brackets(HealthTexts(b)));
  }

  lemma PowerIsRead(a: PowerReading, b: PowerReading)
    ensures Reads(a, b, PowerText(a), PowerText(b))
  {
    StatusIsRead(a.status, b.status);
    FileReading.OptionalByteIsRead(a.percent, b.percent);
    OptionalBooleanIsRead(a.charging, b.charging);
    OptionalBooleanIsRead(a.ac, b.ac);
    TextIsRead(a.updatedAt, b.updatedAt);
    PowerBracesAreRead(a, b, PowerStatusText(a.status), PowerStatusText(b.status),
                       ConfigFile.OptionalByte(a.percent), ConfigFile.OptionalByte(b.percent),
                       OptionalBoolean(a.charging), OptionalBoolean(b.charging),
                       OptionalBoolean(a.ac), OptionalBoolean(b.ac), Quoted(a.updatedAt), Quoted(b.updatedAt));
  }

  function PowerBraces(status: string, percent: string, charging: string, ac: string, updatedAt: string): string {
    Braces(ThreePairs("status", status, "percent", percent, "charging", charging) + ","
           + TwoPairs("ac", ac, "updated_at", updatedAt))
  }

  lemma PowerBracesAreRead(a: PowerReading, b: PowerReading, v: string, v': string, w: string, w': string,
                           x: string, x': string, y: string, y': string, z: string, z': string)
    requires Reads(a.status, b.status, v, v') && Reads(a.percent, b.percent, w, w')
    requires Reads(a.charging, b.charging, x, x') && Reads(a.ac, b.ac, y, y') && Reads(a.updatedAt, b.updatedAt, z, z')
    ensures Reads(a, b, PowerBraces(v, w, x, y, z), PowerBraces(v', w', x', y', z'))
  {
    ThreePairsAreRead("status", v, v', "percent", w, w', "charging", x, x');
    TwoPairsAreRead("ac", y, y', "updated_at", z, z');
    var upper := ThreePairs("status", v, "percent", w, "charging", x);
    var upper' := ThreePairs("status", v', "percent", w', "charging", x');
    var lower, lower' := TwoPairs("ac", y, "updated_at", z), TwoPairs("ac", y', "updated_at", z');
    GroupsAreRead(upper, lower, upper', lower');
    BracesAreRead(upper + "," + lower, upper' + "," + lower');
  }

  lemma OptionalPowerIsRead(a: Option<PowerReading>, b: Option<PowerReading>)
    ensures Reads(a, b, OptionalPower(a), OptionalPower(b))
  {
    if a.Some? && b.Some? {
      PowerIsRead(a.value, b.value);
    } else if a.Some? {
      DifferAt(OptionalPower(a), "null", 0);
    } else if b.Some? {
      DifferAt("null", OptionalPower(b), 0);
    }
  }

  lemma PixelsTell(f: Frame, g: Frame)
    ensures ArrayTells(f.pixels, g.pixels, PixelTexts(f), PixelTexts(g))
  {
    var v, w := PixelTexts(f), PixelTexts(g);
    forall i | 0 <= i < |v| ensures v[i] != "" && v[i][0] != ']' {
      DecimalDigits(f.pixels[i]);
    }
    forall i | 0 <= i < |w| ensures w[i] != "" && w[i][0] != ']' {
      DecimalDigits(g.pixels[i]);
    }
    forall i | 0 <= i < |v| && i < |w| ensures Reads(f.pixels[i], g.pixels[i], v[i], w[i]) {
      NumberIsRead(f.pixels[i], g.pixels[i]);
    }
  }

  function FrameBraces(width: string, height: string, pixels: string): string {
    Braces(ThreePairs("width", width, "height", height, "pixels", pixels))
  }

  lemma FrameBracesAreRead(f: Frame, g: Frame, x: string, x': string, y: string, y': string, z: string, z': string)
    requires Reads(f.width, g.width, x, x') && Reads(f.height, g.height, y, y') && Reads(f.pixels, g.pixels, z, z')
    ensures Reads(f, g, FrameBraces(x, y, z), FrameBraces(x', y', z'))
  {
    ThreePairsAreRead("width", x, x', "height", y, y', "pixels", z, z');
    BracesAreRead(ThreePairs("width", x, "height", y, "pixels", z),
                  ThreePairs("width", x', "height", y', "pixels", z'));
  }

  lemma FrameIsRead(f: Frame, g: Frame)
    ensures Reads(f, g, FrameText(f), FrameText(g))
  {
    NumberIsRead(f.width, g.width);
    NumberIsRead(f.height, g.height);
    PixelsTell(f, g);
    ArrayIsRead(f.pixels, g.pixels, PixelTexts(f), PixelTexts(g));
    FrameBracesAreRead(f, g, Decimal(f.width), Decimal(g.width), Decimal(f.height), Decimal(g.height),
                       Brackets(PixelTexts(f)), Brackets(PixelTexts(g)));
  }

  function PanelBraces(brightness: string, name: string, frame: string, binding: string): string {
    Braces(FourPairs("brightness", brightness, "name", name, "frame", frame, "binding", binding))
  }

  lemma PanelBracesAreRead(p: PanelFrame, q: PanelFrame, w: string, w': string, x: string, x': string,
                           y: string, y': string, z: string, z': string)
    requires Reads(p.brightness, q.brightness, w, w') && Reads(p.name, q.name, x, x')
    requires Reads(p.frame, q.frame, y, y') && Reads(p.binding, q.binding, z, z')
    ensures Reads(p, q, PanelBraces(w, x, y, z), PanelBraces(w', x', y', z'))
  {
    FourPairsAreRead("brightness", w, w', "name", x, x', "frame", y, y', "binding", z, z');
    BracesAreRead(FourPairs("brightness", w, "name", x, "frame", y, "binding", z),
                  FourPairs("brightness", w', "name", x', "frame", y', "binding", z'));
  }

  lemma PanelIsRead(p: PanelFrame, q: PanelFrame)
    ensures Reads(p, q, PanelText(p), PanelText(q))
  {
    FileReading.OptionalByteIsRead(p.brightness, q.brightness);
    TextIsRead(p.name, q.name);
    FrameIsRead(p.frame, q.frame);
    OptionalTextIsRead(p.binding, q.binding);
    PanelBracesAreRead(p, q, ConfigFile.OptionalByte(p.brightness), ConfigFile.OptionalByte(q.brightness),
                       Quoted(p.name), Quoted(q.name), FrameText(p.frame), FrameText(q.frame),
                       OptionalText(p.binding), OptionalText(q.binding));
  }

  lemma PanelsTell(p: seq<PanelFrame>, q: seq<PanelFrame>)
    ensures ArrayTells(p, q, PanelTexts(p), PanelTexts(q))
  {
    var v, w := PanelTexts(p), PanelTexts(q);
    forall i | 0 <= i < |v| && i < |w| ensures Reads(p[i], q[i], v[i], w[i]) {
      PanelIsRead(p[i], q[i]);
    }
  }

  // ------------------------------------------------------------ the whole message

  lemma UpperIsRead(s: Snapshot, t: Snapshot, x: string, x': string, z: string, z': string)
    requires Reads(s.assistants, t.assistants, x, x') && Reads(s.panels, t.panels, z, z')
    ensures Reads((s.assistants, s.preview, s.panels), (t.assistants, t.preview, t.panels),
                  UpperText(x, s.preview, z), UpperText(x', t.preview, z'))
  {
    BooleanIsRead(s.preview, t.preview);
    ThreePairsAreRead("assistants", x, x', "preview", Boolean(s.preview), Boolean(t.preview), "panels", z, z');
  }

  function LowerPairs(power: string, sequence: string, hour: string, minute: string, frame: string): string {
    FivePairs("power", power, "sequence", sequence, "hour", hour, "minute", minute, "frame", frame)
  }

  lemma LowerPairsAreRead(s: Snapshot, t: Snapshot, v: string, v': string, w: string, w': string,
                          x: string, x': string, y: string, y': string, z: string, z': string)
    requires Reads(s.power, t.power, v, v') && Reads(s.sequence, t.sequence, w, w') && Reads(s.hour, t.hour, x, x')
    requires Reads(s.minute, t.minute, y, y') && Reads(s.frame, t.frame, z, z')
    ensures Reads((s.power, s.sequence, s.hour, s.minute, s.frame), (t.power, t.sequence, t.hour, t.minute, t.frame),
                  LowerPairs(v, w, x, y, z), LowerPairs(v', w', x', y', z'))
  {
    FivePairsAreRead("power", v, v', "sequence", w, w', "hour", x, x', "minute", y, y', "frame", z, z');
  }

  lemma LowerIsRead(s: Snapshot, t: Snapshot)
    ensures Reads((s.power, s.sequence, s.hour, s.minute, s.frame), (t.power, t.sequence, t.hour, t.minute, t.frame),
                  Lower(s), Lower(t))
  {
    OptionalPowerIsRead(s.power, t.power);
    NumberIsRead(s.sequence, t.sequence);
    NumberIsRead(s.hour, t.hour);
    NumberIsRead(s.minute, t.minute);
    FrameIsRead(s.frame, t.frame);
    LowerPairsAreRead(s, t, OptionalPower(s.power), OptionalPower(t.power), Decimal(s.sequence), Decimal(t.sequence),
                      Decimal(s.hour), Decimal(t.hour), Decimal(s.minute), Decimal(t.minute),
                      FrameText(s.frame), FrameText(t.frame));
  }

  lemma EnvelopeIsRead(x: string, x': string, y: string, y': string)
    requires Apart(x, x') && Apart(y, y') && Envelope(x, y) == Envelope(x', y')
    ensures x == x' && y == y'
  {
    GroupsAreRead(x, y, x', y');
    BracesAreRead(x + "," + y, x' + "," + y');
    var b, b' := Braces(x + "," + y), Braces(x' + "," + y');
    SameIsApart(Quoted("frame"));
    TwoPairsAreRead("type", Quoted("frame"), Quoted("frame"), "snapshot", b, b');
    BracesAreRead(TwoPairs("type", Quoted("frame"), "snapshot", b), TwoPairs("type", Quoted("frame"), "snapshot", b'));
  }

  lemma UppersAreRead(s: Snapshot, t: Snapshot)
    ensures Reads((s.assistants, s.preview, s.panels), (t.assistants, t.preview, t.panels),
                  UpperText(AssistantsText(s.assistants), s.preview, Brackets(PanelTexts(s.panels))),
                  UpperText(AssistantsText(t.assistants), t.preview, Brackets(PanelTexts(t.panels))))
  {
    AssistantsAreRead(s.assistants, t.assistants);
    PanelsTell(s.panels, t.panels);
    ArrayIsRead(s.panels, t.panels, PanelTexts(s.panels), PanelTexts(t.panels));
    UpperIsRead(s, t, AssistantsText(s.assistants), AssistantsText(t.assistants),
                Brackets(PanelTexts(s.panels)), Brackets(PanelTexts(t.panels)));
  }

  /** The text of a message determines the snapshot, whatever is in it. */
  lemma MessageTextIsInjective(s: Snapshot, t: Snapshot)
    requires MessageText(s) == MessageText(t)
    ensures s == t
  {
    UppersAreRead(s, t);
    LowerIsRead(s, t);
    EnvelopeIsRead(UpperText(AssistantsText(s.assistants), s.preview, Brackets(PanelTexts(s.panels))),
                   UpperText(AssistantsText(t.assistants), t.preview, Brackets(PanelTexts(t.panels))),
                   Lower(s), Lower(t));
  }
}
