/**
 The device side of the serial language: a byte-at-a-time parser in front of
 the awake, brightness, staged-column and shown-frame state.
 A sleeping module consumes the first command in waking up.
 */
module Firmware {
  import opened Basics
  import opened Protocol

  /** What the module displays, apart from the parser in front of it. */
  datatype Display = Display(awake: bool, level: byte, staged: Canvas, shown: Canvas)

  datatype Device = Device(buffer: seq<byte>, display: Display) {
    /** No command is half read. */
    predicate AtBoundary() {
      buffer == []
    }
  }

  function Stage(staged: Canvas, column: byte, values: seq<byte>): Canvas
    requires |values| == HEIGHT
  {
    seq(PIXELS, i requires 0 <= i < PIXELS =>
      if i % WIDTH == column then values[i / WIDTH] else staged[i])
  }

  function Bitmap(bits: seq<byte>): Canvas
    requires |bits| == BITMAP
  {
    seq(PIXELS, i requires 0 <= i < PIXELS => if Lit(bits, i) then 255 else 0)
  }

  function Execute(d: Display, c: Command): Display
    requires c.WellFormed()
  {
    if !d.awake then d.(awake := c != Sleep(1))
    else
      match c
      case Brightness(level) => d.(level := level)
      case Sleep(flag) => d.(awake := flag != 1)
      case DrawBw(bits) => d.(shown := Bitmap(bits))
      case StageCol(column, values) => d.(staged := Stage(d.staged, column, values))
      case FlushCols => d.(shown := d.staged)
      case Version => d
  }

  function ExecuteAll(d: Display, cs: seq<Command>): Display
    requires AllWellFormed(cs)
    decreases |cs|
  {
    if cs == [] then d
    else
      assert cs[0].WellFormed();
      ExecuteAll(Execute(d, cs[0]), cs[1..])
  }

  /** One byte arrives: grow the buffer, run a finished command, or resynchronise. */
  function FeedByte(d: Device, b: byte): Device {
    var buffer := d.buffer + [b];
    if Pending(buffer) then d.(buffer := buffer)
    else if Complete(buffer) then Device([], Execute(d.display, Decode(buffer)))
    else d.(buffer := if b == 0x32 then [b] else [])
  }

  function Feed(d: Device, log: seq<byte>): Device
    decreases |log|
  {
    if log == [] then d else Feed(FeedByte(d, log[0]), log[1..])
  }

  lemma {:induction false} FeedAppend(d: Device, a: seq<byte>, b: seq<byte>)
    ensures Feed(d, a + b) == Feed(Feed(d, a), b)
    decreases |a|
  {
    if a == [] {
      assert a + b == b;
    } else {
      assert (a + b)[0] == a[0] && (a + b)[1..] == a[1..] + b;
      FeedAppend(FeedByte(d, a[0]), a[1..], b);
    }
  }

  lemma PendingPrefix(s: seq<byte>, n: nat)
    requires n <= |s| && (Pending(s) || (Complete(s) && n < |s|))
    ensures Pending(s[..n])
  {
    if n >= 3 { assert s[..n][2] == s[2]; }
  }

  /** An unfinished command only fills the buffer. */
  lemma {:induction false} FeedCut(d: Device, cut: seq<byte>)
    requires d.AtBoundary() && Pending(cut)
    ensures Feed(d, cut) == d.(buffer := cut)
  {
    if cut != [] {
      var n := |cut| - 1;
      PendingPrefix(cut, n);
      FeedCut(d, cut[..n]);
      FeedAppend(d, cut[..n], cut[n..]);
      assert cut[..n] + cut[n..] == cut;
      var before := Feed(d, cut[..n]);
      assert cut[n..] == [cut[n]];
      assert before.buffer + [cut[n]] == cut;
      assert Feed(before, [cut[n]]) == Feed(FeedByte(before, cut[n]), []);
    }
  }

  /** The last byte of a command executes it. */
  lemma LastByte(d: Device, c: Command, b: byte)
    requires Complete(d.buffer + [b]) && d.buffer + [b] == Encode(c) && c.WellFormed()
    ensures FeedByte(d, b) == Device([], Execute(d.display, c))
  {
    EncodeIsComplete(c);
  }

  /** A whole command, byte by byte, has the effect of the command. */
  lemma FeedCommand(d: Device, c: Command)
    requires d.AtBoundary() && c.WellFormed()
    ensures Feed(d, Encode(c)) == d.(display := Execute(d.display, c))
  {
    EncodeIsComplete(c);
    var s := Encode(c);
    var n := |s| - 1;
    var before := d.(buffer := s[..n]);
    PendingPrefix(s, n);
    FeedCut(d, s[..n]);
    FeedAppend(d, s[..n], [s[n]]);
    assert s[..n] + [s[n]] == s;
    LastByte(before, c, s[n]);
    assert Feed(before, [s[n]]) == Feed(FeedByte(before, s[n]), []);
  }

  /** Byte by byte and command by command agree on every list of whole commands. */
  lemma {:induction false} FeedAll(d: Device, cs: seq<Command>)
    requires d.AtBoundary() && AllWellFormed(cs)
    ensures Feed(d, EncodeAll(cs)) == d.(display := ExecuteAll(d.display, cs))
    decreases |cs|
  {
    if cs != [] {
      assert cs[0].WellFormed();
      FeedAppend(d, Encode(cs[0]), EncodeAll(cs[1..]));
      FeedCommand(d, cs[0]);
      FeedAll(d.(display := Execute(d.display, cs[0])), cs[1..]);
    }
  }

  /**
   The automaton reads every log the greedy parser accepts exactly as the parser
   does: it has run the parsed commands and buffers the cut one.
   */
  lemma FeedFollowsParse(d: Device, log: seq<byte>)
    requires d.AtBoundary() && AtMostOneCut(log)
    ensures AllWellFormed(Parse(log).commands)
    ensures Feed(d, log) == Device(Parse(log).rest, ExecuteAll(d.display, Parse(log).commands))
  {
    ParseIsExact(log);
    var p := Parse(log);
    FeedAppend(d, EncodeAll(p.commands), p.rest);
    FeedAll(d, p.commands);
    FeedCut(d.(display := ExecuteAll(d.display, p.commands)), p.rest);
  }

  lemma {:induction false} ExecuteAppend(d: Display, a: seq<Command>, b: seq<Command>)
    requires AllWellFormed(a) && AllWellFormed(b)
    ensures AllWellFormed(a + b)
    ensures ExecuteAll(d, a + b) == ExecuteAll(ExecuteAll(d, a), b)
    decreases |a|
  {
    if a == [] {
      assert a + b == b;
    } else {
      assert a[0].WellFormed();
      assert AllWellFormed(a[1..]);
      ExecuteAppend(Execute(d, a[0]), a[1..], b);
      assert (a + b)[0] == a[0] && (a + b)[1..] == a[1..] + b;
    }
  }

  // ------------------------------------------------------------ whole frames

  /** The first n columns of `pixels` over the rest of `staged`. */
  function StagedUpTo(staged: Canvas, pixels: Canvas, from: nat, n: nat): Canvas {
    seq(PIXELS, i requires 0 <= i < PIXELS =>
      if from <= i % WIDTH < n then pixels[i] else staged[i])
  }

  lemma {:induction false} StagingColumns(d: Display, pixels: Canvas, n: nat)
    requires d.awake && n <= WIDTH
    ensures ExecuteAll(d, Stages(pixels, n)) == d.(staged := StagedUpTo(d.staged, pixels, 0, n))
  {
    if n == 0 {
      assert StagedUpTo(d.staged, pixels, 0, 0) == d.staged;
    } else {
      StagingColumns(d, pixels, n - 1);
      var last := StageCol(n - 1, Column(pixels, n - 1));
      assert Stages(pixels, n) == Stages(pixels, n - 1) + [last];
      ExecuteAppend(d, Stages(pixels, n - 1), [last]);
      var mid := ExecuteAll(d, Stages(pixels, n - 1));
      assert ExecuteAll(mid, [last]) == Execute(mid, last);
      assert Stage(mid.staged, n - 1, Column(pixels, n - 1)) == StagedUpTo(d.staged, pixels, 0, n) by {
        forall i | 0 <= i < PIXELS
          ensures Stage(mid.staged, n - 1, Column(pixels, n - 1))[i] == StagedUpTo(d.staged, pixels, 0, n)[i]
        {
          if i % WIDTH == n - 1 {
            assert (i / WIDTH) * WIDTH + (n - 1) == i;
          }
        }
      }
    }
  }

  /** An awake module that reads a greyscale frame shows exactly that frame. */
  lemma GreyscaleCommits(d: Display, f: Picture)
    requires d.awake
    ensures AllWellFormed(GreyscaleCommands(f))
    ensures ExecuteAll(d, GreyscaleCommands(f)) == d.(staged := f.pixels, shown := f.pixels)
  {
    StagingColumns(d, f.pixels, WIDTH);
    ExecuteAppend(d, Stages(f.pixels, WIDTH), [FlushCols]);
    var mid := ExecuteAll(d, Stages(f.pixels, WIDTH));
    assert ExecuteAll(mid, [FlushCols]) == Execute(mid, FlushCols);
    assert StagedUpTo(d.staged, f.pixels, 0, WIDTH) == f.pixels;
  }

  lemma {:induction false} SkippingColumn(d: Display, pixels: Canvas, n: nat)
    requires !d.awake && 0 < n <= WIDTH
    ensures ExecuteAll(d, Stages(pixels, n))
         == d.(awake := true, staged := StagedUpTo(d.staged, pixels, 1, n))
  {
    var last := StageCol(n - 1, Column(pixels, n - 1));
    assert Stages(pixels, n) == Stages(pixels, n - 1) + [last];
    if n == 1 {
      assert Stages(pixels, n) == [last];
      assert ExecuteAll(d, [last]) == Execute(d, last);
      assert StagedUpTo(d.staged, pixels, 1, 1) == d.staged;
    } else {
      SkippingColumn(d, pixels, n - 1);
      ExecuteAppend(d, Stages(pixels, n - 1), [last]);
      var mid := ExecuteAll(d, Stages(pixels, n - 1));
      assert ExecuteAll(mid, [last]) == Execute(mid, last);
      assert Stage(mid.staged, n - 1, Column(pixels, n - 1)) == StagedUpTo(d.staged, pixels, 1, n) by {
        forall i | 0 <= i < PIXELS
          ensures Stage(mid.staged, n - 1, Column(pixels, n - 1))[i] == StagedUpTo(d.staged, pixels, 1, n)[i]
        {
          if i % WIDTH == n - 1 {
            assert (i / WIDTH) * WIDTH + (n - 1) == i;
          }
        }
      }
    }
  }

  /** A sleeping module wakes up on the first column, which it loses. */
  lemma GreyscaleAsleep(d: Display, f: Picture)
    requires !d.awake
    ensures AllWellFormed(GreyscaleCommands(f))
    ensures var all := StagedUpTo(d.staged, f.pixels, 1, WIDTH);
      ExecuteAll(d, GreyscaleCommands(f)) == d.(awake := true, staged := all, shown := all)
  {
    SkippingColumn(d, f.pixels, WIDTH);
    ExecuteAppend(d, Stages(f.pixels, WIDTH), [FlushCols]);
    var mid := ExecuteAll(d, Stages(f.pixels, WIDTH));
    assert ExecuteAll(mid, [FlushCols]) == Execute(mid, FlushCols);
  }

  lemma FirstColumnDecides(staged: Canvas, pixels: Canvas)
    ensures StagedUpTo(staged, pixels, 1, WIDTH) == pixels <==> Column(staged, 0) == Column(pixels, 0)
  {
    var shown := StagedUpTo(staged, pixels, 1, WIDTH);
    if Column(staged, 0) == Column(pixels, 0) {
      forall i | 0 <= i < PIXELS ensures shown[i] == pixels[i] {
        if i % WIDTH == 0 {
          assert Column(staged, 0)[i / WIDTH] == Column(pixels, 0)[i / WIDTH];
        }
      }
    } else {
      var y :| 0 <= y < HEIGHT && Column(staged, 0)[y] != Column(pixels, 0)[y];
      assert shown[y * WIDTH] != pixels[y * WIDTH];
    }
  }

  /**
   From any command boundary, the bytes of a greyscale frame make the module show
   that frame if and only if it was awake or already had the first column staged.
   */
  lemma GreyscaleShownIff(d: Device, f: Picture)
    requires d.AtBoundary()
    ensures Feed(d, EncodeAll(GreyscaleCommands(f))).AtBoundary()
    ensures Feed(d, EncodeAll(GreyscaleCommands(f))).display.awake
    ensures Feed(d, EncodeAll(GreyscaleCommands(f))).display.level == d.display.level
    ensures Feed(d, EncodeAll(GreyscaleCommands(f))).display.shown == f.pixels
         <==> d.display.awake || Column(d.display.staged, 0) == Column(f.pixels, 0)
  {
    if d.display.awake {
      GreyscaleCommits(d.display, f);
    } else {
      GreyscaleAsleep(d.display, f);
      FirstColumnDecides(d.display.staged, f.pixels);
    }
    FeedAll(d, GreyscaleCommands(f));
  }

  /** The one-bit path lights exactly the pixels that are not dark. */
  lemma BwShowsNonzeroPixels(d: Device, f: Picture)
    requires d.AtBoundary() && d.display.awake
    ensures var out := Feed(d, Encode(DrawBw(Packed(f.pixels, PIXELS))));
      && out.AtBoundary()
      && forall i :: 0 <= i < PIXELS ==> out.display.shown[i] == if f.pixels[i] > 0 then 255 else 0
  {
    FeedCommand(d, DrawBw(Packed(f.pixels, PIXELS)));
  }
}
