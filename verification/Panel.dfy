/**
 One panel as the driver sees it: the open port, what the driver believes the
 module shows, and the retry and quarantine flags. Every operation is a function
 of the old state and of what its writes met; the class at the end runs the
 operations step by step on a port and is proved against these functions.
 Times are milliseconds.
 */
module Panel {
  import opened Basics
  import opened Protocol
  import opened Firmware

  // ---------------------------------------------------------------- the wire

  /** Outcome of writing some bytes: all of them, or a prefix and an error. */
  datatype Delivery = Sent | Broken(k: nat)

  function Arrived(bytes: seq<byte>, d: Delivery): seq<byte> {
    if d.Sent? then bytes else bytes[..Min(d.k, |bytes|)]
  }

  /** Everything written on one opening of the port; `kept` once the driver has stored it. */
  datatype Conn = Conn(log: seq<byte>, failed: bool, kept: bool)

  function Send(c: Conn, cs: seq<Command>, d: Delivery): Conn {
    c.(log := c.log + Arrived(EncodeAll(cs), d), failed := c.failed || d.Broken?)
  }

  datatype PanelState = PanelState(
    conn: Option<Conn>,
    closed: seq<Conn>,
    frame: Option<Picture>,
    level: Option<byte>,
    needsReplug: bool,
    confirmedOff: bool,
    retryAt: int,
    lastWrite: int)

  const RETRY := 5000
  const KEEPALIVE := 25000

  function Fresh(now: int): PanelState {
    PanelState(None, [], None, None, false, false, now, now)
  }

  function Ready(p: PanelState, now: int): bool {
    !p.needsReplug && now >= p.retryAt
  }

  /** The port is dropped; what was written on it stays written. */
  function Drop(p: PanelState): PanelState {
    match p.conn
    case Some(c) => p.(conn := None, closed := p.closed + [c])
    case None => p
  }

  function Failed(p: PanelState, now: int): PanelState {
    Drop(p).(needsReplug := p.conn.Some?, frame := None, retryAt := now + RETRY)
  }

  /** Outcome of the sleep command: the write and the flush behind it. */
  datatype SleepIo = SleepIo(write: Delivery, flushed: bool)

  function SleepPanel(p: PanelState, io: SleepIo): PanelState {
    match p.conn
    case None => p.(frame := None, level := None)
    case Some(c) =>
      var ok := io.write.Sent? && io.flushed;
      var c' := Send(c, [Sleep(1)], io.write).(failed := c.failed || !ok);
      Drop(p.(conn := Some(c'))).(
        confirmedOff := ok, needsReplug := p.needsReplug || !ok, frame := None, level := None)
  }

  /** Outcome of opening a port: free and openable, wake, version query, reply. */
  datatype OpenIo = OpenIo(available: bool, wake: Delivery, query: Delivery, reply: Option<(byte, byte, byte)>)

  predicate Bcd(b: byte) {
    b / 16 <= 9 && b % 16 <= 9
  }

  datatype Opened = Opened(panel: PanelState, ok: bool)

  function Abandon(p: PanelState, c: Conn): Opened {
    Opened(p.(closed := p.closed + [c]), false)
  }

  function Open(p: PanelState, io: OpenIo): (r: Opened)
    ensures r.ok ==> r.panel.conn.Some?
  {
    if p.conn.Some? then Opened(p, true)
    else if !io.available then Opened(p, false)
    else
      var woken := Send(Conn([], false, false), [Sleep(0)], io.wake);
      if io.wake.Broken? then Abandon(p, woken)
      else
        var asked := Send(woken, [Version], io.query);
        if io.query.Broken? || io.reply.None? || !Bcd(io.reply.value.0) || !Bcd(io.reply.value.1)
        then Abandon(p, asked)
        else
          Opened(p.(conn := Some(asked.(kept := true)), confirmedOff := false, level := None, frame := None), true)
  }

  // ------------------------------------------------------ stages of a routing job

  /** A stage either hands over to the next one or ends the attempt. */
  datatype Stage = Stage(panel: PanelState, goOn: bool)

  function OpenStage(p: PanelState, level: Option<byte>, now: int, io: OpenIo): (r: Stage)
    ensures r.goOn ==> r.panel.conn.Some?
  {
    if level.None? && p.confirmedOff then Stage(p, false)
    else
      var attempt := Open(p, io);
      if attempt.ok then Stage(attempt.panel, true) else Stage(Failed(attempt.panel, now), false)
  }

  function BranchStage(p: PanelState, level: Option<byte>, stopping: bool, io: SleepIo): (r: Stage)
    ensures r.goOn ==> level.Some? && r.panel == p
  {
    if level.None? || stopping then Stage(SleepPanel(p, io), false) else Stage(p, true)
  }

  predicate Stale(p: PanelState, level: byte, frame: Picture) {
    p.frame != Some(frame) || p.level != Some(level)
  }

  function PaintCommands(level: byte, frame: Picture): seq<Command> {
    [Brightness(level)] + GreyscaleCommands(frame)
  }

  /** `look` is when the job asks how old the last write is, `now` when it is through. */
  function PaintStage(p: PanelState, level: byte, frame: Picture, look: int, now: int, d: Delivery): PanelState
    requires p.conn.Some?
  {
    if Stale(p, level, frame) then
      var p' := p.(conn := Some(Send(p.conn.value, PaintCommands(level, frame), d)));
      if d.Sent? then p'.(frame := Some(frame), level := Some(level), lastWrite := now)
      else Failed(p', now)
    else if look - p.lastWrite >= KEEPALIVE then
      var p' := p.(conn := Some(Send(p.conn.value, [Brightness(level)], d)));
      if d.Sent? then p'.(lastWrite := now) else Failed(p', now)
    else p
  }

  function EndStage(p: PanelState, stopping: bool, io: SleepIo): PanelState {
    if stopping then SleepPanel(p, io) else p
  }

  /** What a routing job's writes met, in order. */
  datatype JobIo = JobIo(open: OpenIo, branch: SleepIo, paint: Delivery, end: SleepIo)

  /** When the job looked at the clock, and what it saw of the stop flag. */
  datatype JobView = JobView(
    checkAt: int, openAt: int, lookAt: int, paintedAt: int, atCheck: bool, atBranch: bool, atEnd: bool)

  /** One whole routing job under the panel's lock. */
  function RouteJob(p: PanelState, level: Option<byte>, frame: Picture, seen: JobView, io: JobIo): PanelState {
    if !Ready(p, seen.checkAt) || seen.atCheck then p
    else
      var a := OpenStage(p, level, seen.openAt, io.open);
      var b := if a.goOn then BranchStage(a.panel, level, seen.atBranch, io.branch) else a;
      var c :=
        if b.goOn then PaintStage(b.panel, level.value, frame, seen.lookAt, seen.paintedAt, io.paint) else b.panel;
      EndStage(c, seen.atEnd, io.end)
  }

  // ------------------------------------------------- stages of an identification

  function WakeStage(p: PanelState, now: int, wake: Delivery, io: OpenIo): (r: Stage)
    ensures r.goOn ==> r.panel.conn.Some?
  {
    if p.conn.Some? then
      var p' := p.(conn := Some(Send(p.conn.value, [Sleep(0)], wake)));
      if wake.Sent? then Stage(p', true) else Stage(Failed(p', now), false)
    else
      var attempt := Open(p, io);
      if attempt.ok then Stage(attempt.panel, true) else Stage(Failed(attempt.panel, now), false)
  }

  /** Write one list of commands on the open port; quarantine on failure. */
  function SendStage(p: PanelState, cs: seq<Command>, now: int, d: Delivery): (r: Stage)
    requires p.conn.Some?
    ensures r.goOn ==> r.panel.conn.Some?
  {
    var p' := p.(conn := Some(Send(p.conn.value, cs, d)));
    if d.Sent? then Stage(p', true) else Stage(Failed(p', now), false)
  }

  function FlashStage(p: PanelState, active: bool, flash: byte, bits: seq<byte>, now: int, d: Delivery): (r: Stage)
    requires p.conn.Some?
    ensures r.goOn ==> r.panel.conn.Some?
  {
    if active then SendStage(p, [Brightness(flash), DrawBw(bits)], now, d) else Stage(p, true)
  }

  function LevelStage(p: PanelState, level: Option<byte>, now: int, d: Delivery, io: SleepIo): PanelState
    requires p.conn.Some?
  {
    if level.None? then SleepPanel(p, io)
    else
      var sent := SendStage(p, [Brightness(level.value)], now, d);
      if sent.goOn then sent.panel.(level := level) else sent.panel
  }

  function IdentifyEnd(p: PanelState, stopping: bool, io: SleepIo): PanelState {
    EndStage(p.(frame := None), stopping, io)
  }

  /** What an identification's writes met, in order. */
  datatype IdentifyIo = IdentifyIo(
    wake: Delivery, open: OpenIo, flash: Delivery, restore: Delivery, level: Delivery, sleep: SleepIo, end: SleepIo)

  /** What an identification reads of the clock and the shared flags. */
  datatype IdentifyView = IdentifyView(checkAt: int, wakeAt: int, failAt: int, active: bool, stopping: bool)

  /** The flash, the restored frame and the restored level, until one of them fails. */
  function Shown(p: PanelState, flash: byte, bits: seq<byte>, latest: Picture, level: Option<byte>,
                 active: bool, now: int, first: Delivery, restore: Delivery, d: Delivery, sleep: SleepIo): PanelState
    requires p.conn.Some?
  {
    var b := FlashStage(p, active, flash, bits, now, first);
    var c := if b.goOn then SendStage(b.panel, GreyscaleCommands(latest), now, restore) else b;
    if c.goOn then LevelStage(c.panel, level, now, d, sleep) else c.panel
  }

  /** One whole identification under the panel's lock. */
  function Identification(p: PanelState, flash: byte, bits: seq<byte>, latest: Picture, level: Option<byte>,
                          seen: IdentifyView, io: IdentifyIo): PanelState
  {
    if !Ready(p, seen.checkAt) then p
    else
      var a := WakeStage(p, seen.wakeAt, io.wake, io.open);
      var d :=
        if a.goOn
        then Shown(a.panel, flash, bits, latest, level, seen.active, seen.failAt,
                   io.flash, io.restore, io.level, io.sleep)
        else a.panel;
      IdentifyEnd(d, seen.stopping, io.end)
  }

  // --------------------------------------------------------------- invariants

  predicate LogSound(c: Conn) {
    AtMostOneCut(c.log) && (!c.failed ==> Whole(c.log))
  }

  /** A module that read `log` from this display is at a boundary and awake. */
  predicate WakesFrom(display: Display, log: seq<byte>) {
    var out := Feed(Device([], display), log);
    out.AtBoundary() && out.display.awake
  }

  /** Whatever the module showed before the port was opened, it is awake now. */
  ghost predicate Wakes(log: seq<byte>) {
    forall display: Display :: WakesFrom(display, log)
  }

  predicate ShowsFrom(display: Display, log: seq<byte>, f: Picture, b: byte) {
    var out := Feed(Device([], display), log).display;
    out.shown == f.pixels && out.level == b
  }

  /** Whatever the module showed before, it now shows exactly `f` at level `b`. */
  ghost predicate Shows(log: seq<byte>, f: Picture, b: byte) {
    forall display: Display :: ShowsFrom(display, log, f, b)
  }

  /** The driver's cached frame and level are what the module shows. */
  ghost predicate Coherent(p: PanelState) {
    p.conn.Some? && p.frame.Some? ==>
      p.level.Some? && Shows(p.conn.value.log, p.frame.value, p.level.value)
  }

  /** A stored connection has met a write error. */
  ghost predicate Breached(p: PanelState) {
    exists i :: 0 <= i < |p.closed| && p.closed[i].kept && p.closed[i].failed
  }

  ghost predicate Sane(p: PanelState) {
    && (p.conn.Some? ==>
          var c := p.conn.value;
          c.kept && !c.failed && Whole(c.log) && Wakes(c.log))
    && (forall i :: 0 <= i < |p.closed| ==> LogSound(p.closed[i]))
    && (Breached(p) ==> p.needsReplug && p.conn.None?)
  }

  ghost predicate Sound(p: PanelState) {
    Sane(p) && Coherent(p)
  }

  // ----------------------------------------------------- what writing preserves

  lemma SendKeepsWhole(log: seq<byte>, cs: seq<Command>)
    requires Whole(log) && AllWellFormed(cs)
    ensures Whole(log + EncodeAll(cs))
  {
    ParseEncodeAll(cs, []);
    assert EncodeAll(cs) + [] == EncodeAll(cs);
    ParseAppend(log, EncodeAll(cs));
  }

  lemma BrokenSendHasOneCut(log: seq<byte>, cs: seq<Command>, k: nat)
    requires Whole(log) && AllWellFormed(cs)
    ensures AtMostOneCut(log + EncodeAll(cs)[..Min(k, |EncodeAll(cs)|)])
  {
    var n := Min(k, |EncodeAll(cs)|);
    PrefixHasOneCut(cs, n);
    ParseAppend(log, EncodeAll(cs)[..n]);
  }

  lemma SendIsSound(c: Conn, cs: seq<Command>, d: Delivery)
    requires Whole(c.log) && AllWellFormed(cs)
    ensures AtMostOneCut(Send(c, cs, d).log)
    ensures d.Sent? ==> Whole(Send(c, cs, d).log)
  {
    if d.Sent? {
      SendKeepsWhole(c.log, cs);
    } else {
      BrokenSendHasOneCut(c.log, cs, d.k);
    }
  }

  lemma FeedSent(display: Display, log: seq<byte>, cs: seq<Command>)
    requires AllWellFormed(cs) && Feed(Device([], display), log).AtBoundary()
    ensures Feed(Device([], display), log + EncodeAll(cs))
         == Device([], ExecuteAll(Feed(Device([], display), log).display, cs))
  {
    FeedAppend(Device([], display), log, EncodeAll(cs));
    FeedAll(Feed(Device([], display), log), cs);
  }

  /** No command here puts the module to sleep. */
  ghost predicate NoSleep(cs: seq<Command>) {
    forall i :: 0 <= i < |cs| ==> cs[i] != Sleep(1)
  }

  lemma {:induction false} StaysAwake(d: Display, cs: seq<Command>)
    requires d.awake && AllWellFormed(cs) && NoSleep(cs)
    ensures ExecuteAll(d, cs).awake
    decreases |cs|
  {
    if cs != [] {
      assert cs[0].WellFormed() && cs[0] != Sleep(1);
      assert AllWellFormed(cs[1..]) && NoSleep(cs[1..]);
      StaysAwake(Execute(d, cs[0]), cs[1..]);
    }
  }

  lemma SendKeepsAwake(log: seq<byte>, cs: seq<Command>)
    requires Wakes(log) && AllWellFormed(cs) && NoSleep(cs)
    ensures Wakes(log + EncodeAll(cs))
  {
    forall display: Display ensures WakesFrom(display, log + EncodeAll(cs)) {
      assert WakesFrom(display, log);
      FeedSent(display, log, cs);
      StaysAwake(Feed(Device([], display), log).display, cs);
    }
  }

  lemma OpeningWakes()
    ensures AllWellFormed([Sleep(0)]) && AllWellFormed([Version])
    ensures Whole(EncodeAll([Sleep(0)]) + EncodeAll([Version]))
    ensures Wakes(EncodeAll([Sleep(0)]) + EncodeAll([Version]))
  {
    var wake, query := [Sleep(0)], [Version];
    assert Whole([]);
    SendKeepsWhole([], wake);
    assert [] + EncodeAll(wake) == EncodeAll(wake);
    SendKeepsWhole(EncodeAll(wake), query);
    forall display: Display ensures WakesFrom(display, EncodeAll(wake)) {
      FeedAll(Device([], display), wake);
      assert ExecuteAll(display, wake) == Execute(display, Sleep(0));
    }
    SendKeepsAwake(EncodeAll(wake), query);
  }

  lemma PaintingShows(log: seq<byte>, level: byte, frame: Picture)
    requires Wakes(log)
    ensures AllWellFormed(PaintCommands(level, frame)) && NoSleep(PaintCommands(level, frame))
    ensures Shows(log + EncodeAll(PaintCommands(level, frame)), frame, level)
  {
    var cs := PaintCommands(level, frame);
    forall display: Display ensures ShowsFrom(display, log + EncodeAll(cs), frame, level) {
      assert WakesFrom(display, log);
      FeedSent(display, log, cs);
      var before := Feed(Device([], display), log).display;
      assert cs[0] == Brightness(level) && cs[1..] == GreyscaleCommands(frame);
      GreyscaleCommits(Execute(before, Brightness(level)), frame);
    }
  }

  /** Repeating the level, or waking an awake module, changes nothing it shows. */
  lemma RefreshShows(log: seq<byte>, c: Command, frame: Picture, level: byte)
    requires Wakes(log) && Shows(log, frame, level)
    requires c == Brightness(level) || c == Sleep(0)
    ensures Shows(log + EncodeAll([c]), frame, level)
  {
    forall display: Display ensures ShowsFrom(display, log + EncodeAll([c]), frame, level) {
      assert WakesFrom(display, log) && ShowsFrom(display, log, frame, level);
      FeedSent(display, log, [c]);
      var before := Feed(Device([], display), log).display;
      assert ExecuteAll(before, [c]) == Execute(before, c);
    }
  }

  // ------------------------------------------------------- stages keep soundness

  lemma ClosingIsSane(p: PanelState, c: Conn, needsReplug: bool)
    requires Sane(p) && !Breached(p) && LogSound(c)
    requires c.kept && c.failed ==> needsReplug
    ensures Sane(p.(conn := None, closed := p.closed + [c], needsReplug := needsReplug))
  {
    var q := p.(conn := None, closed := p.closed + [c], needsReplug := needsReplug);
    forall i | 0 <= i < |q.closed| ensures LogSound(q.closed[i]) {
    }
    if Breached(q) {
      var i :| 0 <= i < |q.closed| && q.closed[i].kept && q.closed[i].failed;
      assert i < |p.closed| ==> Breached(p);
    }
  }

  lemma NotBreached(p: PanelState)
    requires Sane(p) && (p.conn.Some? || !p.needsReplug)
    ensures !Breached(p)
  {
  }

  lemma SleepIsSound(p: PanelState, io: SleepIo)
    requires Sane(p)
    ensures Sound(SleepPanel(p, io)) && SleepPanel(p, io).conn.None?
  {
    if p.conn.Some? {
      NotBreached(p);
      var c := p.conn.value;
      assert AllWellFormed([Sleep(1)]);
      SendIsSound(c, [Sleep(1)], io.write);
      var ok := io.write.Sent? && io.flushed;
      ClosingIsSane(p, Send(c, [Sleep(1)], io.write).(failed := !ok), p.needsReplug || !ok);
    }
  }

  /** Giving up after a broken write closes the connection for good. */
  lemma FailedIsSound(p: PanelState, cs: seq<Command>, d: Delivery, now: int)
    requires Sane(p) && p.conn.Some? && AllWellFormed(cs) && d.Broken?
    ensures Sound(Failed(p.(conn := Some(Send(p.conn.value, cs, d))), now))
    ensures Failed(p.(conn := Some(Send(p.conn.value, cs, d))), now).needsReplug
  {
    NotBreached(p);
    SendIsSound(p.conn.value, cs, d);
    ClosingIsSane(p, Send(p.conn.value, cs, d), true);
  }

  lemma AbandonIsSound(p: PanelState, c: Conn, now: int)
    requires Sane(p) && p.conn.None? && !p.needsReplug && LogSound(c) && !c.kept
    ensures Sound(Failed(Abandon(p, c).panel, now))
  {
    NotBreached(p);
    ClosingIsSane(p, c, false);
  }

  lemma OpenIsSound(p: PanelState, now: int, io: OpenIo)
    requires Sound(p) && !p.needsReplug
    ensures Open(p, io).ok ==> Sound(Open(p, io).panel) && Open(p, io).panel.conn.Some?
    ensures Open(p, io).ok ==> !Open(p, io).panel.needsReplug
    ensures !Open(p, io).ok ==> Sound(Failed(Open(p, io).panel, now))
  {
    NotBreached(p);
    if p.conn.None? && io.available {
      OpeningWakes();
      var start := Conn([], false, false);
      var woken := Send(start, [Sleep(0)], io.wake);
      SendIsSound(start, [Sleep(0)], io.wake);
      if io.wake.Broken? {
        AbandonIsSound(p, woken, now);
      } else {
        assert woken.log == EncodeAll([Sleep(0)]);
        SendIsSound(woken, [Version], io.query);
        var asked := Send(woken, [Version], io.query);
        if !Open(p, io).ok {
          AbandonIsSound(p, asked, now);
        } else {
          assert Breached(Open(p, io).panel) ==> Breached(p);
        }
      }
    }
  }

  lemma OpenStageIsSound(p: PanelState, level: Option<byte>, now: int, io: OpenIo)
    requires Sound(p) && !p.needsReplug
    ensures Sound(OpenStage(p, level, now, io).panel)
    ensures OpenStage(p, level, now, io).goOn ==>
      OpenStage(p, level, now, io).panel.conn.Some? && !OpenStage(p, level, now, io).panel.needsReplug
  {
    OpenIsSound(p, now, io);
  }

  lemma BranchStageIsSound(p: PanelState, level: Option<byte>, stopping: bool, io: SleepIo)
    requires Sound(p)
    ensures Sound(BranchStage(p, level, stopping, io).panel)
  {
    SleepIsSound(p, io);
  }

  lemma SentIsSane(p: PanelState, cs: seq<Command>)
    requires Sane(p) && p.conn.Some? && AllWellFormed(cs) && NoSleep(cs)
    ensures Sane(p.(conn := Some(Send(p.conn.value, cs, Sent))))
  {
    NotBreached(p);
    SendIsSound(p.conn.value, cs, Sent);
    SendKeepsAwake(p.conn.value.log, cs);
    assert !Breached(p.(conn := Some(Send(p.conn.value, cs, Sent))));
  }

  lemma PaintStageIsSound(p: PanelState, level: byte, frame: Picture, look: int, now: int, d: Delivery)
    requires Sound(p) && p.conn.Some?
    ensures Sound(PaintStage(p, level, frame, look, now, d))
  {
    var c := p.conn.value;
    var cs := if Stale(p, level, frame) then PaintCommands(level, frame) else [Brightness(level)];
    PaintingShows(c.log, level, frame);
    assert AllWellFormed(cs) && NoSleep(cs);
    if d.Broken? {
      FailedIsSound(p, cs, d, now);
    } else {
      SentIsSane(p, cs);
      if Stale(p, level, frame) {
        SaneIgnoresCache(p.(conn := Some(Send(c, cs, d))), PaintStage(p, level, frame, look, now, d));
      } else if look - p.lastWrite >= KEEPALIVE {
        RefreshShows(c.log, Brightness(level), frame, level);
        SaneIgnoresCache(p.(conn := Some(Send(c, cs, d))), PaintStage(p, level, frame, look, now, d));
      }
    }
  }

  /** Only the connections and the quarantine flag matter to `Sane`. */
  lemma SaneIgnoresCache(p: PanelState, q: PanelState)
    requires Sane(p) && q.closed == p.closed && q.needsReplug == p.needsReplug
    requires q.conn == p.conn
    ensures Sane(q)
  {
    assert Breached(q) <==> Breached(p);
  }

  lemma EndStageIsSound(p: PanelState, stopping: bool, io: SleepIo)
    requires Sound(p)
    ensures Sound(EndStage(p, stopping, io))
  {
    SleepIsSound(p, io);
  }

  lemma WakeStageIsSound(p: PanelState, now: int, wake: Delivery, io: OpenIo)
    requires Sound(p) && !p.needsReplug
    ensures Sound(WakeStage(p, now, wake, io).panel)
    ensures WakeStage(p, now, wake, io).goOn ==> WakeStage(p, now, wake, io).panel.conn.Some?
  {
    if p.conn.Some? {
      assert AllWellFormed([Sleep(0)]) && NoSleep([Sleep(0)]);
      if wake.Broken? {
        FailedIsSound(p, [Sleep(0)], wake, now);
      } else {
        SentIsSane(p, [Sleep(0)]);
        if p.frame.Some? {
          RefreshShows(p.conn.value.log, Sleep(0), p.frame.value, p.level.value);
        }
      }
    } else {
      OpenIsSound(p, now, io);
    }
  }

  lemma SendStageIsSane(p: PanelState, cs: seq<Command>, now: int, d: Delivery)
    requires Sane(p) && p.conn.Some? && AllWellFormed(cs) && NoSleep(cs)
    ensures Sane(SendStage(p, cs, now, d).panel)
    ensures SendStage(p, cs, now, d).goOn ==> SendStage(p, cs, now, d).panel.conn.Some?
    ensures !SendStage(p, cs, now, d).goOn ==> SendStage(p, cs, now, d).panel.conn.None?
  {
    if d.Broken? {
      FailedIsSound(p, cs, d, now);
    } else {
      SentIsSane(p, cs);
    }
  }

  lemma FlashStageIsSane(p: PanelState, active: bool, flash: byte, bits: seq<byte>, now: int, d: Delivery)
    requires Sane(p) && p.conn.Some? && |bits| == BITMAP
    ensures Sane(FlashStage(p, active, flash, bits, now, d).panel)
    ensures FlashStage(p, active, flash, bits, now, d).goOn ==>
      FlashStage(p, active, flash, bits, now, d).panel.conn.Some?
    ensures !FlashStage(p, active, flash, bits, now, d).goOn ==>
      FlashStage(p, active, flash, bits, now, d).panel.conn.None?
  {
    var cs := [Brightness(flash), DrawBw(bits)];
    assert AllWellFormed(cs) && NoSleep(cs);
    SendStageIsSane(p, cs, now, d);
  }

  lemma RestoreStageIsSane(p: PanelState, frame: Picture, now: int, d: Delivery)
    requires Sane(p) && p.conn.Some?
    ensures Sane(SendStage(p, GreyscaleCommands(frame), now, d).panel)
  {
    SendStageIsSane(p, GreyscaleCommands(frame), now, d);
  }

  lemma LevelStageIsSane(p: PanelState, level: Option<byte>, now: int, d: Delivery, io: SleepIo)
    requires Sane(p) && p.conn.Some?
    ensures Sane(LevelStage(p, level, now, d, io))
  {
    if level.None? {
      SleepIsSound(p, io);
    } else {
      var cs := [Brightness(level.value)];
      assert AllWellFormed(cs) && NoSleep(cs);
      SendStageIsSane(p, cs, now, d);
      SaneIgnoresCache(SendStage(p, cs, now, d).panel, LevelStage(p, level, now, d, io));
    }
  }

  lemma IdentifyEndIsSound(p: PanelState, stopping: bool, io: SleepIo)
    requires Sane(p)
    ensures Sound(IdentifyEnd(p, stopping, io))
  {
    SaneIgnoresCache(p, p.(frame := None));
    SleepIsSound(p.(frame := None), io);
  }
}
