/** The quarantine flag: every operation on a panel keeps it exact. */
module PanelFlags {
  import opened Basics
  import opened Protocol
  import opened Firmware
  import opened Panel

  /** The flag is up exactly when a stored connection has met an error. */
  ghost predicate FlagIsExact(p: PanelState) {
    p.needsReplug <==> Breached(p)
  }

  lemma LastBreaches(p: PanelState)
    requires p.closed != [] && p.closed[|p.closed| - 1].kept && p.closed[|p.closed| - 1].failed
    ensures Breached(p)
  {
  }

  lemma FlagByClosed(p: PanelState, q: PanelState)
    requires FlagIsExact(p) && q.closed == p.closed && q.needsReplug == p.needsReplug
    ensures FlagIsExact(q)
  {
  }

  lemma SleepFlag(p: PanelState, io: SleepIo)
    requires Sane(p) && FlagIsExact(p)
    ensures FlagIsExact(SleepPanel(p, io))
  {
    SleepIsSound(p, io);
    if p.conn.None? {
      FlagByClosed(p, SleepPanel(p, io));
    } else if SleepPanel(p, io).needsReplug {
      NotBreached(p);
      LastBreaches(SleepPanel(p, io));
    }
  }

  lemma OpenFlag(p: PanelState, level: Option<byte>, now: int, io: OpenIo)
    requires Sound(p) && FlagIsExact(p) && !p.needsReplug
    ensures !OpenStage(p, level, now, io).panel.needsReplug && FlagIsExact(OpenStage(p, level, now, io).panel)
  {
    OpenStageIsSound(p, level, now, io);
  }

  lemma PaintFlag(p: PanelState, level: byte, frame: Picture, look: int, now: int, d: Delivery)
    requires Sound(p) && FlagIsExact(p) && p.conn.Some?
    ensures FlagIsExact(PaintStage(p, level, frame, look, now, d))
  {
    PaintStageIsSound(p, level, frame, look, now, d);
    NotBreached(p);
    if PaintStage(p, level, frame, look, now, d).needsReplug {
      LastBreaches(PaintStage(p, level, frame, look, now, d));
    }
  }

  lemma SendFlag(p: PanelState, cs: seq<Command>, now: int, d: Delivery)
    requires Sane(p) && FlagIsExact(p) && p.conn.Some?
    ensures FlagIsExact(SendStage(p, cs, now, d).panel)
  {
    if d.Broken? {
      LastBreaches(SendStage(p, cs, now, d).panel);
    } else {
      FlagByClosed(p, SendStage(p, cs, now, d).panel);
    }
  }

  lemma WakeFlag(p: PanelState, now: int, wake: Delivery, io: OpenIo)
    requires Sound(p) && FlagIsExact(p) && !p.needsReplug
    ensures FlagIsExact(WakeStage(p, now, wake, io).panel)
  {
    if p.conn.Some? {
      SendFlag(p, [Sleep(0)], now, wake);
    } else {
      WakeStageIsSound(p, now, wake, io);
    }
  }

  lemma FlashFlag(p: PanelState, active: bool, flash: byte, bits: seq<byte>, now: int, d: Delivery)
    requires Sane(p) && FlagIsExact(p) && p.conn.Some?
    ensures FlagIsExact(FlashStage(p, active, flash, bits, now, d).panel)
  {
    SendFlag(p, [Brightness(flash), DrawBw(bits)], now, d);
  }

  lemma LevelFlag(p: PanelState, level: Option<byte>, now: int, d: Delivery, io: SleepIo)
    requires Sane(p) && FlagIsExact(p) && p.conn.Some?
    ensures FlagIsExact(LevelStage(p, level, now, d, io))
  {
    if level.None? {
      SleepFlag(p, io);
    } else {
      var sent := SendStage(p, [Brightness(level.value)], now, d);
      SendFlag(p, [Brightness(level.value)], now, d);
      FlagByClosed(sent.panel, LevelStage(p, level, now, d, io));
    }
  }

  lemma IdentifyEndFlag(p: PanelState, stopping: bool, io: SleepIo)
    requires Sane(p) && FlagIsExact(p)
    ensures FlagIsExact(IdentifyEnd(p, stopping, io))
  {
    var q := p.(frame := None);
    SaneIgnoresCache(p, q);
    FlagByClosed(p, q);
    SleepFlag(q, io);
  }
}
