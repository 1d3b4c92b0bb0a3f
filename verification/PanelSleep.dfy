/** Putting a panel to sleep: what the driver closes in good order is left asleep. */
module PanelSleep {
  import opened Basics
  import opened Protocol
  import opened Firmware
  import opened Panel

  /** A module that read `log` from this display is at a boundary and asleep. */
  predicate SleepsFrom(display: Display, log: seq<byte>) {
    var out := Feed(Device([], display), log);
    out.AtBoundary() && !out.display.awake
  }

  /** Whatever the module did before the port was opened, it is asleep now. */
  ghost predicate Sleeps(log: seq<byte>) {
    forall display: Display :: SleepsFrom(display, log)
  }

  /** Every stored connection that met no error was closed behind a module asleep. */
  ghost predicate LeftAsleep(p: PanelState) {
    forall i :: 0 <= i < |p.closed| && p.closed[i].kept && !p.closed[i].failed ==> Sleeps(p.closed[i].log)
  }

  /** The newest stored connection met no error; later ones were never stored. */
  ghost predicate LastStoredIsFine(p: PanelState) {
    exists i :: (&& 0 <= i < |p.closed| && p.closed[i].kept && !p.closed[i].failed
                 && forall j :: i < j < |p.closed| ==> !p.closed[j].kept)
  }

  /** Confirmed off means closed, behind a stored connection that met no error. */
  ghost predicate OffIsRight(p: PanelState) {
    p.confirmedOff ==> p.conn.None? && LastStoredIsFine(p)
  }

  ghost predicate Rested(p: PanelState) {
    LeftAsleep(p) && OffIsRight(p)
  }

  lemma SleepCommandSleeps(log: seq<byte>)
    requires Wakes(log)
    ensures Sleeps(log + EncodeAll([Sleep(1)]))
  {
    forall display: Display ensures SleepsFrom(display, log + EncodeAll([Sleep(1)])) {
      assert WakesFrom(display, log);
      FeedSent(display, log, [Sleep(1)]);
      var before := Feed(Device([], display), log).display;
      assert ExecuteAll(before, [Sleep(1)]) == Execute(before, Sleep(1));
    }
  }

  /** Whatever else changes, the same closed connections are rested as before. */
  lemma RestedByClosed(p: PanelState, q: PanelState)
    requires Rested(p) && q.closed == p.closed && (q.confirmedOff ==> p.confirmedOff && q.conn.None?)
    ensures Rested(q)
  {
  }

  /** A connection closed behind an error, or never stored, promises nothing. */
  lemma RestedBehindBad(p: PanelState, q: PanelState, c: Conn)
    requires Rested(p) && q.closed == p.closed + [c] && (c.failed || !c.kept)
    requires q.confirmedOff ==> p.confirmedOff && !c.kept && q.conn.None?
    ensures Rested(q)
  {
    if q.confirmedOff {
      var i :| (&& 0 <= i < |p.closed| && p.closed[i].kept && !p.closed[i].failed
                && forall j :: i < j < |p.closed| ==> !p.closed[j].kept);
      assert q.closed[i] == p.closed[i];
    }
  }

  lemma RestedBehindSleep(p: PanelState, q: PanelState, c: Conn)
    requires Rested(p) && q.closed == p.closed + [c] && q.conn.None?
    requires c.kept && !c.failed && Sleeps(c.log)
    ensures Rested(q)
  {
    assert q.closed[|p.closed|] == c;
  }

  lemma SleepRests(p: PanelState, io: SleepIo)
    requires Sane(p) && Rested(p)
    ensures Rested(SleepPanel(p, io))
  {
    var q := SleepPanel(p, io);
    if p.conn.None? {
      RestedByClosed(p, q);
    } else {
      var c := q.closed[|p.closed|];
      if io.write.Sent? && io.flushed {
        SleepCommandSleeps(p.conn.value.log);
        RestedBehindSleep(p, q, c);
      } else {
        RestedBehindBad(p, q, c);
      }
    }
  }

  lemma SendRests(p: PanelState, cs: seq<Command>, now: int, d: Delivery)
    requires Rested(p) && p.conn.Some?
    ensures Rested(SendStage(p, cs, now, d).panel)
  {
    var q := SendStage(p, cs, now, d).panel;
    if d.Sent? {
      RestedByClosed(p, q);
    } else {
      RestedBehindBad(p, q, Send(p.conn.value, cs, d));
    }
  }

  lemma OpenRests(p: PanelState, now: int, io: OpenIo)
    requires Rested(p)
    ensures Open(p, io).ok ==> Rested(Open(p, io).panel)
    ensures !Open(p, io).ok ==> Rested(Failed(Open(p, io).panel, now))
  {
    var r := Open(p, io);
    if p.conn.Some? {
    } else if r.ok || !io.available {
      RestedByClosed(p, if r.ok then r.panel else Failed(r.panel, now));
    } else {
      RestedBehindBad(p, Failed(r.panel, now), r.panel.closed[|p.closed|]);
    }
  }

  lemma OpenStageRests(p: PanelState, level: Option<byte>, now: int, io: OpenIo)
    requires Rested(p)
    ensures Rested(OpenStage(p, level, now, io).panel)
  {
    OpenRests(p, now, io);
  }

  lemma PaintRests(p: PanelState, level: byte, frame: Picture, look: int, now: int, d: Delivery)
    requires Rested(p) && p.conn.Some?
    ensures Rested(PaintStage(p, level, frame, look, now, d))
  {
    var cs := if Stale(p, level, frame) then PaintCommands(level, frame) else [Brightness(level)];
    var q := PaintStage(p, level, frame, look, now, d);
    SendRests(p, cs, now, d);
    if d.Sent? || q == p {
      RestedByClosed(p, q);
    } else {
      assert q == SendStage(p, cs, now, d).panel;
    }
  }

  lemma WakeRests(p: PanelState, now: int, wake: Delivery, io: OpenIo)
    requires Rested(p)
    ensures Rested(WakeStage(p, now, wake, io).panel)
  {
    if p.conn.Some? {
      SendRests(p, [Sleep(0)], now, wake);
    } else {
      OpenRests(p, now, io);
    }
  }

  lemma FlashRests(p: PanelState, active: bool, flash: byte, bits: seq<byte>, now: int, d: Delivery)
    requires Rested(p) && p.conn.Some?
    ensures Rested(FlashStage(p, active, flash, bits, now, d).panel)
  {
    SendRests(p, [Brightness(flash), DrawBw(bits)], now, d);
  }

  lemma LevelRests(p: PanelState, level: Option<byte>, now: int, d: Delivery, io: SleepIo)
    requires Sane(p) && Rested(p) && p.conn.Some?
    ensures Rested(LevelStage(p, level, now, d, io))
  {
    if level.None? {
      SleepRests(p, io);
    } else {
      var sent := SendStage(p, [Brightness(level.value)], now, d);
      SendRests(p, [Brightness(level.value)], now, d);
      RestedByClosed(sent.panel, LevelStage(p, level, now, d, io));
    }
  }

  lemma IdentifyEndRests(p: PanelState, stopping: bool, io: SleepIo)
    requires Sane(p) && Rested(p)
    ensures Rested(IdentifyEnd(p, stopping, io))
  {
    var q := p.(frame := None);
    SaneIgnoresCache(p, q);
    RestedByClosed(p, q);
    SleepRests(q, io);
  }
}
