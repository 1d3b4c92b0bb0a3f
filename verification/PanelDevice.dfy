/**
 The panel object and its serial port, field by field and write by write, proved
 against the operations of module Panel. A port may stop any write after any
 number of bytes.
 */
module PanelDevice {
  import opened Basics
  import opened Protocol
  import opened Firmware
  import opened Panel

  class SerialPort {
    /** Everything that reached the module on this opening. */
    ghost var log: seq<byte>
    /** Some write or flush has reported an error. */
    ghost var failed: bool

    constructor ()
      ensures log == [] && !failed
    {
      log := [];
      failed := false;
    }

    method WriteAll(bytes: seq<byte>) returns (d: Delivery)
      modifies this
      ensures log == old(log) + Arrived(bytes, d)
      ensures failed == (old(failed) || d.Broken?)
    {
      if * {
        log := log + bytes;
        d := Sent;
      } else {
        var k: nat :| k <= |bytes|;
        log := log + bytes[..k];
        failed := true;
        d := Broken(k);
      }
    }

    method Flush() returns (ok: bool)
      modifies this`failed
      ensures failed == (old(failed) || !ok)
    {
      ok := *;
      failed := failed || !ok;
    }

    method Read() returns (reply: Option<(byte, byte, byte)>)
    {
      if * {
        reply := None;
      } else {
        var a: byte, b: byte, c: byte := *, *, *;
        reply := Some((a, b, c));
      }
    }
  }

  lemma {:induction false} EncodeAllSplit(cs: seq<Command>, i: nat)
    requires i <= |cs|
    ensures EncodeAll(cs) == EncodeAll(cs[..i]) + EncodeAll(cs[i..])
  {
    if i == 0 {
      assert cs[i..] == cs;
    } else {
      EncodeAllSplit(cs[1..], i - 1);
      assert cs[..i][1..] == cs[1..][..i - 1];
      assert cs[1..][i - 1..] == cs[i..];
    }
  }

  lemma EncodeOne(c: Command)
    ensures EncodeAll([c]) == Encode(c)
  {
    assert EncodeAll([c]) == Encode(c) + [];
  }

  lemma NextCommand(cs: seq<Command>, i: nat)
    requires i < |cs|
    ensures EncodeAll(cs[..i + 1]) == EncodeAll(cs[..i]) + Encode(cs[i])
  {
    EncodeAllSplit(cs[..i + 1], i);
    assert cs[..i + 1][..i] == cs[..i] && cs[..i + 1][i..] == [cs[i]];
    EncodeOne(cs[i]);
  }

  lemma PrefixOfJoin<T>(a: seq<T>, b: seq<T>, c: seq<T>, k: nat)
    requires k <= |b|
    ensures |a| + k <= |(a + b) + c| && ((a + b) + c)[..|a| + k] == a + b[..k]
  {
  }

  /** A cut in command i is a cut of the whole list. */
  lemma CutInside(cs: seq<Command>, i: nat, k: nat)
    requires i < |cs| && k <= |Encode(cs[i])|
    ensures |EncodeAll(cs[..i])| + k <= |EncodeAll(cs)|
    ensures EncodeAll(cs)[..|EncodeAll(cs[..i])| + k] == EncodeAll(cs[..i]) + Encode(cs[i])[..k]
  {
    var head, one, tail := EncodeAll(cs[..i]), Encode(cs[i]), EncodeAll(cs[i + 1..]);
    NextCommand(cs, i);
    EncodeAllSplit(cs, i + 1);
    assert EncodeAll(cs) == (head + one) + tail;
    PrefixOfJoin(head, one, tail, k);
  }

  /** Writes one encoded command after another and stops at the first error. */
  method WriteCommands(port: SerialPort, commands: seq<seq<byte>>, ghost cs: seq<Command>)
    returns (ok: bool, ghost d: Delivery)
    requires |commands| == |cs| && forall i :: 0 <= i < |cs| ==> commands[i] == Encode(cs[i])
    modifies port
    ensures port.log == old(port.log) + Arrived(EncodeAll(cs), d)
    ensures port.failed == (old(port.failed) || d.Broken?)
    ensures ok == d.Sent?
  {
    ghost var before := port.log;
    for i := 0 to |commands|
      invariant port.log == before + EncodeAll(cs[..i])
      invariant port.failed == old(port.failed)
    {
      ghost var head := EncodeAll(cs[..i]);
      var written := port.WriteAll(commands[i]);
      if written.Broken? {
        ghost var k := Min(written.k, |commands[i]|);
        CutInside(cs, i, k);
        d := Broken(|head| + k);
        Associate(before, head, commands[i][..k]);
        assert Arrived(EncodeAll(cs), d) == head + commands[i][..k];
        return false, d;
      }
      NextCommand(cs, i);
      Associate(before, head, commands[i]);
    }
    assert cs[..|cs|] == cs;
    ok, d := true, Sent;
  }

  predicate Border(i: nat) {
    i < PIXELS && (i % WIDTH == 0 || i % WIDTH == WIDTH - 1 || i / WIDTH == 0 || i / WIDTH == HEIGHT - 1)
  }

  function BorderFrame(): (f: Frame)
    ensures f.Valid()
  {
    Frame(WIDTH, HEIGHT, seq(PIXELS, i requires 0 <= i < PIXELS => if Border(i) then 180 else 0))
  }

  function BorderBits(): (bits: seq<byte>)
    ensures |bits| == BITMAP && forall i :: 0 <= i < PIXELS ==> (Lit(bits, i) <==> Border(i))
  {
    Packed(BorderFrame().pixels, PIXELS)
  }

  /** The identification pattern, drawn in place. */
  method BorderPattern() returns (pattern: Frame)
    ensures pattern == BorderFrame()
  {
    var pixels := new byte[PIXELS](_ => 0);
    for y := 0 to HEIGHT
      invariant forall i :: 0 <= i < PIXELS ==>
        pixels[i] == if Border(i) && i / WIDTH < y then 180 else 0
    {
      for x := 0 to WIDTH
        invariant forall i :: 0 <= i < PIXELS ==>
          pixels[i] == if Border(i) && (i / WIDTH < y || (i / WIDTH == y && i % WIDTH < x)) then 180 else 0
      {
        if x == 0 || x == WIDTH - 1 || y == 0 || y == HEIGHT - 1 {
          pixels[y * WIDTH + x] := 180;
        }
      }
    }
    pattern := Frame(WIDTH, HEIGHT, pixels[..]);
  }

  class PanelDevice {
    var port: SerialPort?
    var frame: Option<Picture>
    var level: Option<byte>
    var needsReplug: bool
    var confirmedOff: bool
    var retryAt: int
    var lastWrite: int
    /** Connections that are over. */
    ghost var closed: seq<Conn>

    ghost function View(): PanelState
      reads this, port
    {
      PanelState(if port == null then None else Some(Conn(port.log, port.failed, true)),
                 closed, frame, level, needsReplug, confirmedOff, retryAt, lastWrite)
    }

    constructor (now: int)
      ensures View() == Fresh(now)
      ensures port == null
    {
      port := null;
      frame := None;
      level := None;
      needsReplug := false;
      confirmedOff := false;
      retryAt := now;
      lastWrite := now;
      closed := [];
    }

    method IsReady(now: int) returns (ready: bool)
      ensures ready == Ready(View(), now)
    {
      ready := !needsReplug && now >= retryAt;
    }

    method Failed(now: int)
      modifies this
      ensures View() == old(Panel.Failed(View(), now))
      ensures port == null
    {
      needsReplug := port != null;
      if port != null {
        closed := closed + [Conn(port.log, port.failed, true)];
      }
      port := null;
      frame := None;
      retryAt := now + RETRY;
    }

    method Sleep() returns (ghost io: SleepIo)
      modifies this, port
      ensures View() == SleepPanel(old(View()), io)
      ensures port == null
    {
      io := SleepIo(Sent, true);
      if port != null {
        EncodeOne(Command.Sleep(1));
        var d := port.WriteAll(Bytes(0x03, [1]));
        var ok := d.Sent?;
        if ok {
          ok := port.Flush();
        }
        io := SleepIo(d, ok);
        confirmedOff := ok;
        if !confirmedOff {
          needsReplug := true;
        }
        closed := closed + [Conn(port.log, port.failed, true)];
      }
      port := null;
      frame := None;
      level := None;
    }

    /** Opens the port unless it is open; the port is stored only after a valid reply. */
    method Open() returns (ok: bool, ghost io: OpenIo)
      modifies this
      ensures View() == Panel.Open(old(View()), io).panel && ok == Panel.Open(old(View()), io).ok
      ensures old(port) != null ==> port == old(port)
      ensures old(port) == null && port != null ==> fresh(port)
      ensures ok ==> port != null
    {
      io := OpenIo(false, Sent, Sent, None);
      if port != null {
        return true, io;
      }
      var available: bool := *;
      if !available {
        return false, io;
      }
      var opening := new SerialPort();
      EncodeOne(Command.Sleep(0));
      EncodeOne(Version);
      var wake := opening.WriteAll(Bytes(0x03, [0]));
      io := OpenIo(true, wake, Sent, None);
      if wake.Broken? {
        closed := closed + [Conn(opening.log, opening.failed, false)];
        return false, io;
      }
      var query := opening.WriteAll(Bytes(0x20, []));
      io := OpenIo(true, wake, query, None);
      if query.Broken? {
        closed := closed + [Conn(opening.log, opening.failed, false)];
        return false, io;
      }
      var reply := opening.Read();
      io := OpenIo(true, wake, query, reply);
      if reply.None? || !Bcd(reply.value.0) || !Bcd(reply.value.1) {
        closed := closed + [Conn(opening.log, opening.failed, false)];
        return false, io;
      }
      port := opening;
      confirmedOff := false;
      level := None;
      frame := None;
      ok := true;
    }

    /** Brightness and the ten greyscale commands, or a keepalive, or nothing. */
    method Paint(brightness: byte, picture: Picture, look: int, now: int) returns (ok: bool, ghost d: Delivery)
      requires port != null
      modifies this, port
      ensures port == old(port)
      ensures ok == d.Sent?
      ensures View() == PaintStage(old(View()), brightness, picture, look, now, d) || !ok
      ensures !ok ==> Panel.Failed(View(), now) == PaintStage(old(View()), brightness, picture, look, now, d)
    {
      d := Sent;
      ok := true;
      EncodeOne(Brightness(brightness));
      if frame != Some(picture) || level != Some(brightness) {
        var commands := Greyscale(picture);
        ghost var cs := PaintCommands(brightness, picture);
        ok, d := WriteCommands(port, [Bytes(0x00, [brightness])] + commands.value, cs);
        if !ok {
          return;
        }
        frame := Some(picture);
        level := Some(brightness);
        lastWrite := now;
      } else if look - lastWrite >= KEEPALIVE {
        var sent := port.WriteAll(Bytes(0x00, [brightness]));
        d := sent;
        if sent.Broken? {
          return false, d;
        }
        lastWrite := now;
      }
    }

    /** The body of a routing job, once it holds the panel. */
    method RunJob(brightness: Option<byte>, picture: Picture, seen: JobView) returns (ghost io: JobIo)
      modifies this, port
      ensures View() == RouteJob(old(View()), brightness, picture, seen, io)
    {
      io := JobIo(OpenIo(false, Sent, Sent, None), SleepIo(Sent, true), Sent, SleepIo(Sent, true));
      var ready := IsReady(seen.checkAt);
      if !ready || seen.atCheck {
        return;
      }
      if brightness.None? && confirmedOff {
      } else {
        var ok, open := Open();
        io := io.(open := open);
        if !ok {
          Failed(seen.openAt);
        } else if brightness.None? || seen.atBranch {
          ghost var branch := Sleep();
          io := io.(branch := branch);
        } else {
          var painted, paint := Paint(brightness.value, picture, seen.lookAt, seen.paintedAt);
          io := io.(paint := paint);
          if !painted {
            Failed(seen.paintedAt);
          }
        }
      }
      if seen.atEnd {
        ghost var end := Sleep();
        io := io.(end := end);
      }
    }

    method FlashBorder(flash: byte, ghost now: int) returns (ok: bool, ghost d: Delivery)
      requires port != null
      modifies port
      ensures var sent := SendStage(old(View()), [Brightness(flash), DrawBw(BorderBits())], now, d);
        ok == sent.goOn && (if ok then View() else Panel.Failed(View(), now)) == sent.panel
    {
      var pattern := BorderPattern();
      var bw := Bw(pattern);
      ok, d := WriteCommands(port, [Bytes(0x00, [flash]), bw.value], [Brightness(flash), DrawBw(BorderBits())]);
    }

    /** Flash the border if still wanted, then restore the latest normal frame. */
    method IdentifyOn(active: bool, latest: Picture, flash: byte, ghost now: int)
      returns (ok: bool, ghost first: Delivery, ghost restore: Delivery)
      requires port != null
      modifies port
      ensures var flashed := FlashStage(old(View()), active, flash, BorderBits(), now, first);
        if flashed.goOn then
          var restored := SendStage(flashed.panel, GreyscaleCommands(latest), now, restore);
          ok == restored.goOn && (if ok then View() else Panel.Failed(View(), now)) == restored.panel
        else
          !ok && Panel.Failed(View(), now) == flashed.panel
    {
      first, restore := Sent, Sent;
      if active {
        ok, first := FlashBorder(flash, now);
        if !ok {
          return;
        }
      }
      var columns := Greyscale(latest);
      ok, restore := WriteCommands(port, columns.value, GreyscaleCommands(latest));
    }

    /** Wake the module on the open port, or open the port. */
    method WakeOrOpen(now: int) returns (ghost wake: Delivery, ghost open: OpenIo, ok: bool)
      modifies this, port
      ensures View() == WakeStage(old(View()), now, wake, open).panel
      ensures ok == WakeStage(old(View()), now, wake, open).goOn
      ensures old(port) == null && port != null ==> fresh(port)
      ensures old(port) != null && port != null ==> port == old(port)
    {
      wake, open := Sent, OpenIo(false, Sent, Sent, None);
      EncodeOne(Command.Sleep(0));
      if port != null {
        var d := port.WriteAll(Bytes(0x03, [0]));
        wake := d;
        ok := d.Sent?;
      } else {
        ok, open := Open();
      }
      if !ok {
        Failed(now);
      }
    }

    /** Put the applied level back, or sleep if there is none. */
    method RestoreLevel(target: Option<byte>, now: int) returns (ghost d: Delivery, ghost sleep: SleepIo)
      requires port != null
      modifies this, port
      ensures View() == LevelStage(old(View()), target, now, d, sleep)
      ensures port == null || port == old(port)
    {
      d, sleep := Sent, SleepIo(Sent, true);
      if target.Some? {
        EncodeOne(Brightness(target.value));
        var written := port.WriteAll(Bytes(0x00, [target.value]));
        d := written;
        if written.Sent? {
          level := target;
        } else {
          Failed(now);
        }
      } else {
        sleep := Sleep();
      }
    }

    /** What follows once the module is awake. */
    method FlashAndRestore(flash: byte, latest: Picture, target: Option<byte>, active: bool, now: int)
      returns (ghost first: Delivery, ghost restore: Delivery, ghost d: Delivery, ghost sleep: SleepIo)
      requires port != null
      modifies this, port
      ensures View() == Shown(old(View()), flash, BorderBits(), latest, target, active, now, first, restore, d, sleep)
      ensures port == null || port == old(port)
    {
      d, sleep := Sent, SleepIo(Sent, true);
      var done;
      done, first, restore := IdentifyOn(active, latest, flash, now);
      if done {
        d, sleep := RestoreLevel(target, now);
      } else {
        Failed(now);
      }
    }

    /** Forget the cached frame, and sleep if the driver is stopping. */
    method EndIdentify(stopping: bool) returns (ghost end: SleepIo)
      modifies this, port
      ensures View() == IdentifyEnd(old(View()), stopping, end)
    {
      end := SleepIo(Sent, true);
      frame := None;
      if stopping {
        end := Sleep();
      }
    }

    /** The body of an identification, once it holds the panel. */
    method RunIdentify(flash: byte, latest: Picture, target: Option<byte>, seen: IdentifyView)
      returns (ghost io: IdentifyIo)
      modifies this, port
      ensures View() == Identification(old(View()), flash, BorderBits(), latest, target, seen, io)
    {
      ghost var quiet := SleepIo(Sent, true);
      io := IdentifyIo(Sent, OpenIo(false, Sent, Sent, None), Sent, Sent, Sent, quiet, quiet);
      var ready := IsReady(seen.checkAt);
      if !ready {
        return;
      }
      var wake, open, ok := WakeOrOpen(seen.wakeAt);
      ghost var first, restore, d, sleep := Sent, Sent, Sent, quiet;
      if ok {
        first, restore, d, sleep := FlashAndRestore(flash, latest, target, seen.active, seen.failAt);
      }
      var end := EndIdentify(seen.stopping);
      io := IdentifyIo(wake, open, first, restore, d, sleep, end);
    }
  }
}
