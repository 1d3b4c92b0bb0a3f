/**
 The serial byte language of the LED module: the host's encoders, and the
 byte-at-a-time automaton of the firmware that has to read them back.
 */
module Protocol {
  import opened Basics

  const WIDTH := 9
  const HEIGHT := 34
  const PIXELS := 306
  const BITMAP := 39

  /** The pixels of one frame, row by row. */
  type Canvas = s: seq<byte> | |s| == PIXELS witness seq(PIXELS, _ => 0)

  /** Row-major greyscale pixels; index y * WIDTH + x. */
  datatype Frame = Frame(width: byte, height: byte, pixels: seq<byte>) {
    predicate Valid() {
      width == WIDTH && height == HEIGHT && |pixels| == PIXELS
    }
  }

  function Blank(): (f: Frame)
  {
    Frame(WIDTH, HEIGHT, seq(PIXELS, _ => 0))
  }

  /** A frame the renderer can produce. */
  type Picture = f: Frame | f.Valid() witness Blank()

  // ---------------------------------------------------------------- commands

  datatype Command =
    | Brightness(level: byte)
    | Sleep(flag: byte)
    | DrawBw(bits: seq<byte>)
    | StageCol(column: byte, values: seq<byte>)
    | FlushCols
    | Version
  {
    predicate WellFormed() {
      match this
      case DrawBw(bits) => |bits| == BITMAP
      case StageCol(_, values) => |values| == HEIGHT
      case _ => true
    }

    function Id(): byte {
      match this
      case Brightness(_) => 0x00
      case Sleep(_) => 0x03
      case DrawBw(_) => 0x06
      case StageCol(_, _) => 0x07
      case FlushCols => 0x08
      case Version => 0x20
    }

    function Payload(): seq<byte> {
      match this
      case Brightness(level) => [level]
      case Sleep(flag) => [flag]
      case DrawBw(bits) => bits
      case StageCol(column, values) => [column] + values
      case FlushCols => []
      case Version => []
    }
  }

  function Bytes(id: byte, payload: seq<byte>): seq<byte> {
    [0x32, 0xac, id] + payload
  }

  function Encode(c: Command): seq<byte> {
    Bytes(c.Id(), c.Payload())
  }

  function EncodeAll(cs: seq<Command>): seq<byte> {
    if cs == [] then [] else Encode(cs[0]) + EncodeAll(cs[1..])
  }

  ghost predicate AllWellFormed(cs: seq<Command>) {
    forall i :: 0 <= i < |cs| ==> cs[i].WellFormed()
  }

  // ----------------------------------------------------------------- parsing

  /** Payload length the firmware expects behind a command id. */
  function PayloadLength(id: byte): Option<nat> {
    if id == 0x00 || id == 0x03 then Some(1)
    else if id == 0x06 then Some(BITMAP)
    else if id == 0x07 then Some(1 + HEIGHT)
    else if id == 0x08 || id == 0x20 then Some(0)
    else None
  }

  /** Bytes that may still grow into a command: a cut command, or nothing. */
  predicate Pending(s: seq<byte>) {
    && (|s| >= 1 ==> s[0] == 0x32)
    && (|s| >= 2 ==> s[1] == 0xac)
    && (|s| >= 3 ==> PayloadLength(s[2]).Some? && |s| < 3 + PayloadLength(s[2]).value)
  }

  /** Exactly one whole command. */
  predicate Complete(s: seq<byte>) {
    && |s| >= 3 && s[0] == 0x32 && s[1] == 0xac
    && PayloadLength(s[2]).Some? && |s| == 3 + PayloadLength(s[2]).value
  }

  lemma HeaderFirst(s: seq<byte>)
    requires Complete(s)
    ensures s == Bytes(s[2], s[3..])
  {
    assert s == s[..3] + s[3..];
    assert s[..3] == [s[0], s[1], s[2]];
  }

  function Decode(s: seq<byte>): (c: Command)
    requires Complete(s)
    ensures c.WellFormed() && Encode(c) == s
  {
    HeaderFirst(s);
    var id := s[2];
    if id == 0x00 then
      assert s[3..] == [s[3]];
      Brightness(s[3])
    else if id == 0x03 then
      assert s[3..] == [s[3]];
      Sleep(s[3])
    else if id == 0x06 then DrawBw(s[3..])
    else if id == 0x07 then
      assert s[3..] == [s[3]] + s[4..];
      StageCol(s[3], s[4..])
    else if id == 0x08 then FlushCols
    else Version
  }

  datatype Parsed = Parsed(commands: seq<Command>, rest: seq<byte>)

  /** Greedy reading of a byte log into whole commands and what is left over. */
  function Parse(log: seq<byte>): Parsed {
    if |log| < 3 || PayloadLength(log[2]).None? then Parsed([], log)
    else
      var n := 3 + PayloadLength(log[2]).value;
      if |log| < n || !Complete(log[..n]) then Parsed([], log)
      else
        var tail := Parse(log[n..]);
        Parsed([Decode(log[..n])] + tail.commands, tail.rest)
  }

  /** The log holds whole commands only. */
  predicate Whole(log: seq<byte>) {
    Parse(log).rest == []
  }

  /** The log holds whole commands followed by at most one cut command. */
  predicate AtMostOneCut(log: seq<byte>) {
    Pending(Parse(log).rest)
  }

  lemma BytesParts(id: byte, payload: seq<byte>)
    ensures var s := Bytes(id, payload);
      |s| == 3 + |payload| && s[0] == 0x32 && s[1] == 0xac && s[2] == id && s[3..] == payload
  {
  }

  lemma PayloadFits(c: Command)
    requires c.WellFormed()
    ensures PayloadLength(c.Id()) == Some(|c.Payload()|)
  {
  }

  lemma EncodeIsComplete(c: Command)
    requires c.WellFormed()
    ensures Complete(Encode(c)) && Decode(Encode(c)) == c
  {
    BytesParts(c.Id(), c.Payload());
    PayloadFits(c);
    var s := Encode(c);
    if c.StageCol? {
      assert s[4..] == s[3..][1..] == c.values;
    }
  }

  /** A cut is exactly a strict prefix of some command. */
  lemma PendingIffCutCommand(s: seq<byte>)
    ensures Pending(s) <==> exists c: Command :: c.WellFormed() && s < Encode(c)
  {
    if Pending(s) {
      var header := [0x32, 0xac, if |s| >= 3 then s[2] else 0x00];
      var n := 3 + PayloadLength(header[2]).value;
      var padded := seq(n, i requires 0 <= i < n =>
        if i < |s| then s[i] else if i < 3 then header[i] else 0);
      assert Complete(padded);
      var c := Decode(padded);
      assert s == padded[..|s|];
      assert s < Encode(c);
    }
    forall c: Command | c.WellFormed() && s < Encode(c)
      ensures Pending(s)
    {
      EncodeIsComplete(c);
      assert s == Encode(c)[..|s|];
    }
  }

  lemma ParseCommand(c: Command, rest: seq<byte>)
    requires c.WellFormed()
    ensures Parse(Encode(c) + rest) == Parsed([c] + Parse(rest).commands, Parse(rest).rest)
  {
    EncodeIsComplete(c);
    var log := Encode(c) + rest;
    var n := |Encode(c)|;
    assert log[..n] == Encode(c) && log[n..] == rest;
    assert log[2] == Encode(c)[2];
  }

  lemma HeadFirst<T>(s: seq<T>, t: seq<T>)
    requires s != []
    ensures s + t == [s[0]] + (s[1..] + t)
  {
  }

  lemma EncodeAllBehind(cs: seq<Command>, more: seq<byte>)
    requires cs != []
    ensures EncodeAll(cs) + more == Encode(cs[0]) + (EncodeAll(cs[1..]) + more)
  {
  }

  lemma NothingBehind(more: seq<byte>)
    ensures EncodeAll([]) + more == more
  {
  }

  /** One command in front of what is known to parse. */
  lemma ParseOneMore(c: Command, rest: seq<byte>, cs: seq<Command>, tail: Parsed)
    requires c.WellFormed() && Parse(rest) == Parsed(cs + tail.commands, tail.rest)
    ensures Parse(Encode(c) + rest) == Parsed([c] + (cs + tail.commands), tail.rest)
  {
    ParseCommand(c, rest);
  }

  lemma {:induction false} ParseBehind(cs: seq<Command>, more: seq<byte>)
    requires AllWellFormed(cs)
    ensures Parse(EncodeAll(cs) + more) == Parsed(cs + Parse(more).commands, Parse(more).rest)
  {
    if cs == [] {
      NothingBehind(more);
      assert [] + Parse(more).commands == Parse(more).commands;
    } else {
      assert cs[0].WellFormed() && AllWellFormed(cs[1..]);
      ParseBehind(cs[1..], more);
      EncodeAllBehind(cs, more);
      ParseOneMore(cs[0], EncodeAll(cs[1..]) + more, cs[1..], Parse(more));
      HeadFirst(cs, Parse(more).commands);
    }
  }

  /** Any concatenation of whole commands, with a cut behind it, reads back as itself. */
  lemma ParseEncodeAll(cs: seq<Command>, cut: seq<byte>)
    requires AllWellFormed(cs) && Pending(cut)
    ensures Parse(EncodeAll(cs) + cut) == Parsed(cs, cut)
  {
    ParseBehind(cs, cut);
    assert Parse(cut) == Parsed([], cut);
    assert cs + [] == cs;
  }

  lemma EncodeAllHead(c: Command, cs: seq<Command>)
    ensures EncodeAll([c] + cs) == Encode(c) + EncodeAll(cs)
  {
    assert ([c] + cs)[1..] == cs;
  }

  lemma Rejoin<T>(log: seq<T>, n: nat)
    requires n <= |log|
    ensures log[..n] + log[n..] == log
  {
  }

  /** Parsing loses nothing: the commands and the rest make up the log again. */
  lemma {:induction false} ParseIsExact(log: seq<byte>)
    ensures AllWellFormed(Parse(log).commands)
    ensures EncodeAll(Parse(log).commands) + Parse(log).rest == log
  {
    if Parse(log).commands == [] {
      assert EncodeAll([]) == [];
    } else {
      var n := 3 + PayloadLength(log[2]).value;
      var tail := Parse(log[n..]);
      var first := Decode(log[..n]);
      assert Parse(log) == Parsed([first] + tail.commands, tail.rest);
      ParseIsExact(log[n..]);
      EncodeAllHead(first, tail.commands);
      Associate(log[..n], EncodeAll(tail.commands), tail.rest);
      Rejoin(log, n);
    }
  }

  lemma ParseAppend(log: seq<byte>, more: seq<byte>)
    requires Whole(log)
    ensures Parse(log + more).commands == Parse(log).commands + Parse(more).commands
    ensures Parse(log + more).rest == Parse(more).rest
  {
    var cs := Parse(log).commands;
    ParseIsExact(log);
    ParseBehind(cs, more);
    assert EncodeAll(cs) == log;
  }

  /** However many bytes of a command list arrive, at most the last command is cut. */
  lemma {:induction false} PrefixHasOneCut(cs: seq<Command>, k: nat)
    requires AllWellFormed(cs) && k <= |EncodeAll(cs)|
    ensures AtMostOneCut(EncodeAll(cs)[..k])
  {
    var bytes := EncodeAll(cs);
    if cs == [] {
    } else {
      assert cs[0].WellFormed();
      EncodeIsComplete(cs[0]);
      var n := |Encode(cs[0])|;
      if k < n {
        assert bytes[..k] < Encode(cs[0]);
        PendingIffCutCommand(bytes[..k]);
        assert Parse(bytes[..k]).rest == bytes[..k] by {
          if k >= 3 { assert bytes[..k][2] == Encode(cs[0])[2]; }
        }
      } else {
        assert AllWellFormed(cs[1..]);
        PrefixHasOneCut(cs[1..], k - n);
        assert bytes[..k] == Encode(cs[0]) + EncodeAll(cs[1..])[..k - n];
        ParseCommand(cs[0], EncodeAll(cs[1..])[..k - n]);
      }
    }
  }

  // ---------------------------------------------------------------- encoders

  function Column(pixels: seq<byte>, x: nat): (c: seq<byte>)
    requires |pixels| == PIXELS && x < WIDTH
    ensures |c| == HEIGHT
  {
    seq(HEIGHT, y requires 0 <= y < HEIGHT => pixels[y * WIDTH + x])
  }

  function Stages(pixels: seq<byte>, n: nat): (cs: seq<Command>)
    requires |pixels| == PIXELS && n <= WIDTH
    ensures |cs| == n && forall i :: 0 <= i < n ==> cs[i] == StageCol(i, Column(pixels, i))
  {
    seq(n, i requires 0 <= i < n => StageCol(i, Column(pixels, i)))
  }

  /** The ten commands that stage nine columns and commit them. */
  function GreyscaleCommands(f: Picture): (cs: seq<Command>) {
    Stages(f.pixels, WIDTH) + [FlushCols]
  }

  lemma NextPixel(pixels: seq<byte>, x: nat, y: nat)
    requires |pixels| == PIXELS && x < WIDTH && y < HEIGHT
    ensures Column(pixels, x)[..y + 1] == Column(pixels, x)[..y] + [pixels[y * WIDTH + x]]
  {
  }

  /** The inner loop of the greyscale encoder: column number, then the column from the top. */
  method ColumnPayload(pixels: seq<byte>, x: byte) returns (payload: seq<byte>)
    requires |pixels| == PIXELS && x < WIDTH
    ensures payload == [x] + Column(pixels, x)
  {
    ghost var column := Column(pixels, x);
    payload := [x];
    for y := 0 to HEIGHT
      invariant payload == [x] + column[..y]
    {
      NextPixel(pixels, x, y);
      Associate([x], column[..y], [pixels[y * WIDTH + x]]);
      payload := payload + [pixels[y * WIDTH + x]];
    }
    assert column[..HEIGHT] == column;
  }

  /** One byte string a command. */
  function Encoded(cs: seq<Command>): seq<seq<byte>> {
    seq(|cs|, i requires 0 <= i < |cs| => Encode(cs[i]))
  }

  lemma EncodedAppend(cs: seq<Command>, c: Command)
    ensures Encoded(cs + [c]) == Encoded(cs) + [Encode(c)]
  {
  }

  lemma NextStage(pixels: seq<byte>, x: nat)
    requires |pixels| == PIXELS && x < WIDTH
    ensures Stages(pixels, x + 1) == Stages(pixels, x) + [StageCol(x, Column(pixels, x))]
  {
  }

  /** Nested loops of the greyscale encoder, one byte string a command. */
  method Greyscale(frame: Frame) returns (r: Option<seq<seq<byte>>>)
    ensures r.Some? <==> frame.Valid()
    ensures r.Some? ==> r.value == Encoded(GreyscaleCommands(frame))
  {
    if !frame.Valid() {
      return None;
    }
    ghost var stages := Stages(frame.pixels, 0);
    var commands: seq<seq<byte>> := [];
    for x := 0 to WIDTH
      invariant stages == Stages(frame.pixels, x) && commands == Encoded(stages)
    {
      var payload := ColumnPayload(frame.pixels, x);
      EncodedAppend(stages, StageCol(x, Column(frame.pixels, x)));
      NextStage(frame.pixels, x);
      commands := commands + [Bytes(0x07, payload)];
      stages := Stages(frame.pixels, x + 1);
    }
    EncodedAppend(stages, FlushCols);
    commands := commands + [Bytes(0x08, [])];
    r := Some(commands);
  }

  // ------------------------------------------------------------------- bits

  function Power(k: nat): (p: nat)
    ensures p > 0
  {
    if k == 0 then 1 else 2 * Power(k - 1)
  }

  /** Bit k of an unsigned number, least significant first. */
  predicate Bit(b: nat, k: nat) {
    if k == 0 then b % 2 == 1 else Bit(b / 2, k - 1)
  }

  /** `b | 1 << k` on a number of `width` bits. */
  function SetBit(b: nat, k: nat, width: nat): (r: nat)
    requires k < width && b < Power(width)
    ensures r < Power(width)
  {
    assert Power(width) == 2 * Power(width - 1);
    if k == 0 then (if b % 2 == 1 then b else b + 1)
    else 2 * SetBit(b / 2, k - 1, width - 1) + b % 2
  }

  /** It sets bit k and nothing else. */
  lemma {:induction false} SetBitSetsOne(b: nat, k: nat, width: nat, j: nat)
    requires k < width && b < Power(width)
    ensures Bit(SetBit(b, k, width), j) <==> (j == k || Bit(b, j))
  {
    assert Power(width) == 2 * Power(width - 1);
    var r := SetBit(b, k, width);
    if k > 0 && j > 0 {
      assert r / 2 == SetBit(b / 2, k - 1, width - 1);
      SetBitSetsOne(b / 2, k - 1, width - 1, j - 1);
    } else if j > 0 {
      assert r / 2 == b / 2;
    }
  }

  lemma {:induction false} ZeroHasNoBits(k: nat)
    ensures !Bit(0, k)
  {
    if k > 0 { ZeroHasNoBits(k - 1); }
  }

  function SetByteBit(b: byte, k: nat): (r: byte)
    requires k < 8
    ensures forall j: nat :: Bit(r, j) <==> (j == k || Bit(b, j))
  {
    assert Power(8) == 256 by { assert Power(4) == 16; }
    var r := SetBit(b, k, 8);
    assert forall j: nat :: Bit(r, j) <==> (j == k || Bit(b, j)) by {
      forall j: nat ensures Bit(r, j) <==> (j == k || Bit(b, j)) {
        SetBitSetsOne(b, k, 8, j);
      }
    }
    r
  }

  predicate Lit(bits: seq<byte>, index: nat)
    requires |bits| == BITMAP && index < PIXELS
  {
    Bit(bits[index / 8], index % 8)
  }

  /** The bitmap of the first n pixels, bit by bit. */
  function Packed(pixels: seq<byte>, n: nat): (bits: seq<byte>)
    requires |pixels| == PIXELS && n <= PIXELS
    ensures |bits| == BITMAP
    ensures forall i :: 0 <= i < PIXELS ==> (Lit(bits, i) <==> i < n && pixels[i] > 0)
  {
    if n == 0 then
      assert forall i :: 0 <= i < PIXELS ==> !Bit(0, i % 8) by {
        forall i | 0 <= i < PIXELS ensures !Bit(0, i % 8) { ZeroHasNoBits(i % 8); }
      }
      seq(BITMAP, _ => 0)
    else
      var index := n - 1;
      var bits := Packed(pixels, index);
      if pixels[index] == 0 then bits
      else
        var r := bits[index / 8 := SetByteBit(bits[index / 8], index % 8)];
        assert forall i :: 0 <= i < PIXELS ==> (Lit(r, i) <==> i == index || Lit(bits, i)) by {
          forall i | 0 <= i < PIXELS ensures Lit(r, i) <==> (i == index || Lit(bits, i)) {
            if i / 8 == index / 8 && i % 8 == index % 8 {
              assert i == index;
            }
          }
        }
        r
  }

  /** The one-bit encoder: one bit a pixel, least significant bit first. */
  method Bw(frame: Frame) returns (r: Option<seq<byte>>)
    ensures r.Some? <==> frame.Valid()
    ensures r.Some? ==> r.value == Encode(DrawBw(Packed(frame.pixels, PIXELS)))
  {
    if !frame.Valid() {
      return None;
    }
    var payload: seq<byte> := seq(BITMAP, _ => 0);
    for index := 0 to PIXELS
      invariant payload == Packed(frame.pixels, index)
    {
      if frame.pixels[index] > 0 {
        payload := payload[index / 8 := SetByteBit(payload[index / 8], index % 8)];
      }
    }
    r := Some(Bytes(0x06, payload));
  }
}
