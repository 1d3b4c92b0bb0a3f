/** Whole jobs on one panel: what they leave behind, and how often they write. */
module PanelRuns {
  import opened Basics
  import opened Protocol
  import opened Firmware
  import opened Panel
  import opened PanelDevice
  import opened PanelSleep

  /** A job leaves the cache right, whatever its writes met. */
  lemma RouteJobIsSound(p: PanelState, level: Option<byte>, frame: Picture, seen: JobView, io: JobIo)
    requires Sound(p)
    ensures Sound(RouteJob(p, level, frame, seen, io))
  {
    if Ready(p, seen.checkAt) && !seen.atCheck {
      OpenStageIsSound(p, level, seen.openAt, io.open);
      var a := OpenStage(p, level, seen.openAt, io.open);
      BranchStageIsSound(a.panel, level, seen.atBranch, io.branch);
      var b := if a.goOn then BranchStage(a.panel, level, seen.atBranch, io.branch) else a;
      if b.goOn {
        PaintStageIsSound(b.panel, level.value, frame, seen.lookAt, seen.paintedAt, io.paint);
      }
      var c :=
        if b.goOn then PaintStage(b.panel, level.value, frame, seen.lookAt, seen.paintedAt, io.paint) else b.panel;
      EndStageIsSound(c, seen.atEnd, io.end);
    }
  }

  // ----------------------------------------------------------- an undisturbed job

  const HEALTHY_OPEN := OpenIo(true, Sent, Sent, Some((0, 0x20, 0)))
  const HEALTHY := JobIo(HEALTHY_OPEN, SleepIo(Sent, true), Sent, SleepIo(Sent, true))

  /** A job that asks about the last write at `look` and is through with its writing at `done`. */
  function During(look: int, done: int): JobView {
    JobView(look, look, look, done, false, false, false)
  }

  function LitJob(p: PanelState, level: byte, frame: Picture, look: int, done: int): PanelState {
    RouteJob(p, Some(level), frame, During(look, done), HEALTHY)
  }

  lemma OpensClosed(p: PanelState)
    requires p.conn.None?
    ensures var r := Open(p, HEALTHY_OPEN);
      && r.ok && r.panel.conn.Some? && r.panel.frame.None?
      && r.panel.closed == p.closed && r.panel.needsReplug == p.needsReplug && r.panel.retryAt == p.retryAt
  {
  }

  /** A decimal digit in each half. */
  predicate TwoDigits(b: byte) {
    b % 16 < 10 && b < 160
  }

  /**
   A closed port is opened exactly if it is free, takes both commands, and answers with
   a version of two decimal bytes and a third; what was written is kept, either way.
   */
  lemma OpensIff(p: PanelState, io: OpenIo)
    requires p.conn.None?
    ensures var r := Open(p, io);
      && (r.ok <==> io.available && io.wake.Sent? && io.query.Sent? && io.reply.Some?
                    && TwoDigits(io.reply.value.0) && TwoDigits(io.reply.value.1))
      && (r.ok ==> r.panel.conn == Some(Conn(EncodeAll([Sleep(0)]) + EncodeAll([Version]), false, true)))
      && (!r.ok ==> r.panel.conn.None? && |r.panel.closed| == |p.closed| + if io.available then 1 else 0)
  {
    assert [] + EncodeAll([Sleep(0)]) == EncodeAll([Sleep(0)]);
  }

  /** Opening succeeds, and a closed port forgets the frame. */
  lemma Opens(p: PanelState, level: Option<byte>, now: int)
    requires level.Some? || !p.confirmedOff
    ensures var r := OpenStage(p, level, now, HEALTHY_OPEN);
      && r.goOn && r.panel.conn.Some? && r.panel.closed == p.closed && r.panel.needsReplug == p.needsReplug
      && (p.conn.Some? ==> r.panel == p)
      && (p.conn.None? ==> r.panel.frame.None?)
  {
    if p.conn.None? {
      OpensClosed(p);
    }
  }

  lemma LitJobPaints(p: PanelState, level: byte, frame: Picture, look: int, done: int)
    requires Ready(p, look) && OpenStage(p, Some(level), look, HEALTHY_OPEN).goOn
    ensures LitJob(p, level, frame, look, done)
         == PaintStage(OpenStage(p, Some(level), look, HEALTHY_OPEN).panel, level, frame, look, done, Sent)
  {
  }

  lemma PaintedIsRemembered(p: PanelState, level: byte, frame: Picture, look: int, now: int)
    requires p.conn.Some?
    ensures var q := PaintStage(p, level, frame, look, now, Sent);
      q.conn.Some? && q.frame == Some(frame) && q.level == Some(level)
  {
    if !Stale(p, level, frame) {
      assert p.frame == Some(frame) && p.level == Some(level);
    }
  }

  /** After a lit job whose writes succeed, the module shows the wanted frame at the wanted level. */
  lemma LitJobShows(p: PanelState, level: byte, frame: Picture, look: int, done: int)
    requires Sound(p) && Ready(p, look)
    ensures var q := LitJob(p, level, frame, look, done);
      q.conn.Some? && Wakes(q.conn.value.log) && Shows(q.conn.value.log, frame, level)
  {
    RouteJobIsSound(p, Some(level), frame, During(look, done), HEALTHY);
    Opens(p, Some(level), look);
    LitJobPaints(p, level, frame, look, done);
    PaintedIsRemembered(OpenStage(p, Some(level), look, HEALTHY_OPEN).panel, level, frame, look, done);
  }

  /** A job finds the module showing what it should, and leaves it alone until the keepalive. */
  lemma SettledJobIsSilent(p: PanelState, level: byte, frame: Picture, look: int, done: int)
    requires p.conn.Some? && Ready(p, look) && p.frame == Some(frame) && p.level == Some(level)
    requires look - p.lastWrite < 25_000
    ensures LitJob(p, level, frame, look, done) == p
  {
  }

  /** Putting an open module to sleep, with a write that succeeds. */
  lemma SleepingLeaves(p: PanelState)
    requires Sane(p) && p.conn.Some?
    ensures LeftOff(SleepPanel(p, SleepIo(Sent, true)), p.closed, p.needsReplug)
  {
    var q := SleepPanel(p, SleepIo(Sent, true));
    SleepCommandSleeps(p.conn.value.log);
    assert q.closed[|p.closed|] == Send(p.conn.value, [Sleep(1)], Sent);
  }

  /** Closed in good order: one more closed connection, and the module asleep behind it. */
  ghost predicate LeftOff(q: PanelState, closed: seq<Conn>, needsReplug: bool) {
    && q.conn.None? && q.confirmedOff && q.needsReplug == needsReplug && |q.closed| == |closed| + 1
    && var c := q.closed[|closed|];
       c.kept && !c.failed && Sleeps(c.log)
  }

  /** After a job for a panel switched off, whose writes succeed, the module is asleep and the port closed. */
  lemma UnlitJobSleeps(p: PanelState, frame: Picture, look: int, done: int)
    requires Sound(p) && Ready(p, look) && !p.confirmedOff
    ensures LeftOff(RouteJob(p, None, frame, During(look, done), HEALTHY), p.closed, false)
  {
    OpenStageIsSound(p, None, look, HEALTHY_OPEN);
    var a := OpenStage(p, None, look, HEALTHY_OPEN).panel;
    Opens(p, None, look);
    SleepingLeaves(a);
    RouteJobUnlit(p, frame, look, done);
  }

  lemma RouteJobUnlit(p: PanelState, frame: Picture, look: int, done: int)
    requires Ready(p, look) && OpenStage(p, None, look, HEALTHY_OPEN).goOn
    ensures RouteJob(p, None, frame, During(look, done), HEALTHY)
         == SleepPanel(OpenStage(p, None, look, HEALTHY_OPEN).panel, SleepIo(Sent, true))
  {
  }

  /** A panel already put to sleep is not opened again to be put to sleep: nothing more is written. */
  lemma OffStaysOff(p: PanelState, frame: Picture, seen: JobView, io: JobIo)
    requires p.confirmedOff && p.conn.None?
    ensures var q := RouteJob(p, None, frame, seen, io);
      q.conn.None? && q.closed == p.closed && q.confirmedOff && q.needsReplug == p.needsReplug
  {
  }

  /** Behind a failed attempt to open the port, nobody tries again for five seconds. */
  lemma FailedOpenWaits(p: PanelState, level: Option<byte>, at: int, open: OpenIo, now: int)
    requires p.conn.None? && !OpenStage(p, level, at, open).goOn && !(level.None? && p.confirmedOff)
    ensures Ready(OpenStage(p, level, at, open).panel, now) <==> now >= at + 5000
  {
  }

  /** A panel that is not ready is left exactly as it is, by jobs and identifications alike. */
  lemma NotReadyIsLeftAlone(p: PanelState, level: Option<byte>, frame: Picture, seen: JobView, io: JobIo,
                            flash: byte, bits: seq<byte>, view: IdentifyView, io': IdentifyIo)
    requires !Ready(p, seen.checkAt) && !Ready(p, view.checkAt)
    ensures RouteJob(p, level, frame, seen, io) == p
    ensures Identification(p, flash, bits, frame, level, view, io') == p
  {
  }

  // ------------------------------------------------- an undisturbed identification

  const HEALTHY_IDENTIFY := IdentifyIo(Sent, HEALTHY_OPEN, Sent, Sent, Sent, SleepIo(Sent, true), SleepIo(Sent, true))

  lemma TwoCommands(d: Display, a: Command, b: Command)
    requires a.WellFormed() && b.WellFormed()
    ensures AllWellFormed([a, b]) && ExecuteAll(d, [a, b]) == Execute(Execute(d, a), b)
  {
    assert [a, b][1..] == [b];
    assert ExecuteAll(Execute(d, a), [b]) == Execute(Execute(d, a), b);
  }

  lemma BorderBitmap(d: Display, flash: byte)
    requires d.awake
    ensures var out := Execute(Execute(d, Brightness(flash)), DrawBw(BorderBits()));
      && out.awake && out.level == flash
      && forall i :: 0 <= i < PIXELS ==> out.shown[i] == if Border(i) then 255 else 0
  {
    var bits := BorderBits();
    forall i | 0 <= i < PIXELS ensures Bitmap(bits)[i] == if Border(i) then 255 else 0 {
    }
  }

  predicate BorderFrom(display: Display, log: seq<byte>, flash: byte) {
    var out := Feed(Device([], display), log).display;
    && out.awake && out.level == flash
    && forall i :: 0 <= i < PIXELS ==>
         out.shown[i] == if i < 9 || i >= 297 || i % 9 == 0 || i % 9 == 8 then 255 else 0
  }

  lemma BorderSent(display: Display, log: seq<byte>, flash: byte)
    requires Wakes(log)
    ensures BorderFrom(display, log + EncodeAll([Brightness(flash), DrawBw(BorderBits())]), flash)
  {
    assert WakesFrom(display, log);
    var before := Feed(Device([], display), log).display;
    TwoCommands(before, Brightness(flash), DrawBw(BorderBits()));
    FeedSent(display, log, [Brightness(flash), DrawBw(BorderBits())]);
    BorderBitmap(before, flash);
  }

  /** The flash lights exactly the border, at the flash level. */
  lemma FlashShowsBorder(p: PanelState, flash: byte, now: int, display: Display)
    requires Sane(p) && p.conn.Some?
    ensures var q := FlashStage(p, true, flash, BorderBits(), now, Sent).panel;
      q.conn.Some? && BorderFrom(display, q.conn.value.log, flash)
  {
    BorderSent(display, p.conn.value.log, flash);
  }

  lemma LevelBehindFrame(display: Display, painted: seq<byte>, frame: Picture, level: byte)
    requires var out := Feed(Device([], display), painted);
      out.AtBoundary() && out.display.awake && out.display.shown == frame.pixels
    ensures ShowsFrom(display, painted + EncodeAll([Brightness(level)]), frame, level)
  {
    FeedSent(display, painted, [Brightness(level)]);
    var before := Feed(Device([], display), painted).display;
    assert ExecuteAll(before, [Brightness(level)]) == Execute(before, Brightness(level));
  }

  lemma FrameIsSent(display: Display, log: seq<byte>, frame: Picture)
    requires WakesFrom(display, log)
    ensures var out := Feed(Device([], display), log + EncodeAll(GreyscaleCommands(frame)));
      out.AtBoundary() && out.display.awake && out.display.shown == frame.pixels
  {
    GreyscaleCommits(Feed(Device([], display), log).display, frame);
    FeedSent(display, log, GreyscaleCommands(frame));
  }

  /** Repainting and then setting the level shows that frame at that level. */
  lemma RestoringShows(log: seq<byte>, frame: Picture, level: byte)
    requires Wakes(log)
    ensures Shows(log + EncodeAll(GreyscaleCommands(frame)) + EncodeAll([Brightness(level)]), frame, level)
  {
    var painted := log + EncodeAll(GreyscaleCommands(frame));
    forall display: Display ensures ShowsFrom(display, painted + EncodeAll([Brightness(level)]), frame, level) {
      FrameIsSent(display, log, frame);
      LevelBehindFrame(display, painted, frame, level);
    }
  }

  /** What an undisturbed identification has written before the level is put back. */
  function BeforeLevel(p: PanelState, flash: byte, latest: Picture, active: bool, now: int): PanelState
    requires WakeStage(p, now, Sent, HEALTHY_OPEN).goOn
  {
    var a := WakeStage(p, now, Sent, HEALTHY_OPEN).panel;
    FlashStage(a, active, flash, BorderBits(), now, Sent).panel
  }

  lemma Woken(p: PanelState, now: int)
    ensures var a := WakeStage(p, now, Sent, HEALTHY_OPEN);
      && a.goOn && a.panel.conn.Some? && a.panel.closed == p.closed
      && a.panel.needsReplug == p.needsReplug && a.panel.retryAt == p.retryAt
  {
    if p.conn.None? {
      OpensClosed(p);
    }
  }

  lemma BeforeLevelIsSane(p: PanelState, flash: byte, latest: Picture, active: bool, now: int)
    requires Sound(p) && Ready(p, now)
    ensures WakeStage(p, now, Sent, HEALTHY_OPEN).goOn
    ensures var b := BeforeLevel(p, flash, latest, active, now);
      && Sane(b) && b.conn.Some? && b.closed == p.closed && !b.needsReplug
  {
    Woken(p, now);
    WakeStageIsSound(p, now, Sent, HEALTHY_OPEN);
    var a := WakeStage(p, now, Sent, HEALTHY_OPEN).panel;
    FlashStageIsSane(a, active, flash, BorderBits(), now, Sent);
    SendLonger(a, [Brightness(flash), DrawBw(BorderBits())], now);
  }

  /**
   After an identification whose writes succeed, the module shows the latest frame at
   the applied level, or, if there is none, is asleep behind a closed port.
   */
  lemma IdentificationRestores(p: PanelState, flash: byte, latest: Picture, level: Option<byte>, active: bool, now: int)
    requires Sound(p) && Ready(p, now)
    ensures var q := Identification(p, flash, BorderBits(), latest, level,
                                    IdentifyView(now, now, now, active, false), HEALTHY_IDENTIFY);
      && (level.Some? ==> q.conn.Some? && Shows(q.conn.value.log, latest, level.value))
      && (level.None? ==> LeftOff(q, p.closed, false))
  {
    BeforeLevelIsSane(p, flash, latest, active, now);
    var b := BeforeLevel(p, flash, latest, active, now);
    RestoreStageIsSane(b, latest, now, Sent);
    var c := SendStage(b, GreyscaleCommands(latest), now, Sent).panel;
    if level.Some? {
      RestoringShows(b.conn.value.log, latest, level.value);
    } else {
      SleepingLeaves(c);
    }
  }

  // ------------------------------------------------------------------- keepalive

  /**
   Work on a panel that stays routed, lit and healthy. A job looks at the age of the
   last write, may write until `heard`, and stores the time at `done`. The first
   command of an identification is written at `first` and its last one at `last`.
   */
  datatype Event =
    | Job(look: int, heard: int, done: int, level: byte, frame: Picture)
    | Identify(first: int, last: int, level: byte, latest: Picture, active: bool)
  {
    predicate InOrder() {
      match this
      case Job(look, heard, done, _, _) => look <= heard <= done
      case Identify(first, last, _, _, _) => first <= last < first + IDLE_TIMEOUT
    }
    function Begin(): int {
      if Job? then look else first
    }
    function End(): int {
      if Job? then done else last
    }
  }

  function Apply(p: PanelState, e: Event): PanelState {
    match e
    case Job(look, _, done, level, frame) => LitJob(p, level, frame, look, done)
    case Identify(first, last, level, latest, active) =>
      Identification(p, level, seq(BITMAP, _ => 0), latest, Some(level),
                     IdentifyView(first, first, last, active, false), HEALTHY_IDENTIFY)
  }

  /** Did anything reach the module? */
  predicate Wrote(p: PanelState, q: PanelState) {
    p.conn != q.conn
  }

  /** When the module last heard a command, after the event. */
  function HeardAfter(p: PanelState, e: Event, heard: int): int {
    if !Wrote(p, Apply(p, e)) then heard else if e.Job? then e.heard else e.last
  }

  /** The module never waits for `limit`, neither for a command nor, in vain, at a job. */
  ghost predicate HeardWithin(p: PanelState, heard: int, events: seq<Event>, limit: int)
    decreases |events|
  {
    events == [] ||
    var e, q := events[0], Apply(p, events[0]);
    && (match e
        case Job(look, at, _, _, _) => (if Wrote(p, q) then at else look) - heard < limit
        case Identify(first, last, _, _, _) => Wrote(p, q) && first - heard < limit && last - first < limit)
    && HeardWithin(q, HeardAfter(p, e, heard), events[1..], limit)
  }

  /**
   Events follow one another in time. From one job's look to the end of the next job,
   or to the first command of an identification before it, it takes at most `gap`;
   a job stores its time at most `lag` after its last write.
   */
  predicate Paced(lastLook: int, now: int, events: seq<Event>, gap: int, lag: int)
    decreases |events|
  {
    events == [] ||
    var e := events[0];
    && e.InOrder() && now <= e.Begin()
    && (if e.Job? then e.done <= lastLook + gap && e.done - e.heard <= lag else e.first <= lastLook + gap)
    && Paced(if e.Job? then e.look else lastLook, e.End(), events[1..], gap, lag)
  }

  const IDLE_TIMEOUT := 60000

  lemma WritingGrows(c: Conn, cs: seq<Command>)
    requires cs != []
    ensures Send(c, cs, Sent) != c
  {
    assert |EncodeAll(cs)| > 0;
    assert |Send(c, cs, Sent).log| > |c.log|;
  }

  /** What the driver remembers of the last command the module heard. */
  predicate InTouch(p: PanelState, heard: int, now: int, lag: int) {
    && p.conn.Some? && !p.needsReplug && p.retryAt <= now && heard <= now
    && (p.frame.None? || p.lastWrite <= heard + lag)
  }

  lemma JobKeepsPace(p: PanelState, e: Event, heard: int, lag: int)
    requires e.Job? && e.InOrder() && InTouch(p, heard, e.look, lag) && e.done - e.heard <= lag
    ensures InTouch(Apply(p, e), HeardAfter(p, e, heard), e.done, lag)
    ensures e.look - HeardAfter(p, e, heard) < KEEPALIVE + lag
  {
    LitJobPaints(p, e.level, e.frame, e.look, e.done);
    WritingGrows(p.conn.value, PaintCommands(e.level, e.frame));
    WritingGrows(p.conn.value, [Brightness(e.level)]);
  }

  lemma IdentifyKeepsPace(p: PanelState, e: Event, heard: int, lag: int)
    requires e.Identify? && e.InOrder() && InTouch(p, heard, e.first, lag)
    ensures InTouch(Apply(p, e), e.last, e.last, lag) && Wrote(p, Apply(p, e))
  {
    IdentifyGrows(p, e);
  }

  lemma SendLonger(p: PanelState, cs: seq<Command>, now: int)
    requires p.conn.Some?
    ensures SendStage(p, cs, now, Sent).goOn
    ensures SendStage(p, cs, now, Sent).panel.conn.Some?
    ensures |SendStage(p, cs, now, Sent).panel.conn.value.log| == |p.conn.value.log| + |EncodeAll(cs)|
    ensures SendStage(p, cs, now, Sent).panel == p.(conn := SendStage(p, cs, now, Sent).panel.conn)
  {
  }

  /** The port after an undisturbed identification of an open, lit panel. */
  function Identified(p: PanelState, e: Event): PanelState
    requires e.Identify? && p.conn.Some?
  {
    var woken := SendStage(p, [Sleep(0)], e.first, Sent).panel;
    var flashed := FlashStage(woken, e.active, e.level, seq(BITMAP, _ => 0), e.last, Sent).panel;
    var restored := SendStage(flashed, GreyscaleCommands(e.latest), e.last, Sent).panel;
    SendStage(restored, [Brightness(e.level)], e.last, Sent).panel
  }

  lemma IdentifiedLonger(p: PanelState, e: Event)
    requires e.Identify? && p.conn.Some?
    ensures var q := Identified(p, e);
      q.conn.Some? && |q.conn.value.log| > |p.conn.value.log| && q == p.(conn := q.conn)
  {
    SendLonger(p, [Sleep(0)], e.first);
    var woken := SendStage(p, [Sleep(0)], e.first, Sent).panel;
    var bits := seq(BITMAP, _ => 0);
    SendLonger(woken, [Brightness(e.level), DrawBw(bits)], e.last);
    var flashed := FlashStage(woken, e.active, e.level, bits, e.last, Sent).panel;
    SendLonger(flashed, GreyscaleCommands(e.latest), e.last);
    SendLonger(SendStage(flashed, GreyscaleCommands(e.latest), e.last, Sent).panel, [Brightness(e.level)], e.last);
    assert |EncodeAll([Sleep(0)])| > 0;
  }

  lemma IdentifyEndsLit(p: PanelState, e: Event)
    requires e.Identify? && p.conn.Some? && Ready(p, e.first)
    ensures Apply(p, e) == Identified(p, e).(level := Some(e.level), frame := None)
  {
  }

  lemma IdentifyGrows(p: PanelState, e: Event)
    requires e.Identify? && p.conn.Some? && !p.needsReplug && p.retryAt <= e.first
    ensures var q := Apply(p, e);
      q.conn.Some? && !q.needsReplug && q.retryAt == p.retryAt && q.frame.None? && Wrote(p, q)
  {
    IdentifyEndsLit(p, e);
    IdentifiedLonger(p, e);
  }

  /**
   While a panel stays routed, lit and healthy, the module never goes 60 s without
   hearing a command, if it takes at most 35 s, less the lag in storing the time of a
   write, from one job's look to the end of the next job. Identifications that last
   less than a minute may come in between at any time.
   */
  lemma {:induction false} NeverIdleForAMinute(p: PanelState, heard: int, lastLook: int, now: int,
                                               events: seq<Event>, gap: int, lag: nat)
    requires InTouch(p, heard, now, lag) && lastLook - heard < KEEPALIVE + lag
    requires gap + lag <= IDLE_TIMEOUT - KEEPALIVE && Paced(lastLook, now, events, gap, lag)
    ensures HeardWithin(p, heard, events, IDLE_TIMEOUT)
    decreases |events|
  {
    if events != [] {
      var e := events[0];
      var q := Apply(p, e);
      if e.Job? {
        JobKeepsPace(p, e, heard, lag);
        NeverIdleForAMinute(q, HeardAfter(p, e, heard), e.look, e.done, events[1..], gap, lag);
      } else {
        IdentifyKeepsPace(p, e, heard, lag);
        NeverIdleForAMinute(q, e.last, lastLook, e.last, events[1..], gap, lag);
      }
    }
  }
}
