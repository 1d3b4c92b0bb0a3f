/**
 The JSON text the daemon writes: compact messages and pretty-printed files, each
 character standing for one byte of UTF-8. String escapes are those of section 7
 of RFC 8259.
 */
module Json {
  import opened Basics
  import opened Assistant

  // ------------------------------------------------------------------- values

  function Decimal(n: nat): (t: string)
    ensures |t| >= 1
  {
    if n < 10 then ["0123456789"[n]] else Decimal(n / 10) + ["0123456789"[n % 10]]
  }

  function Ten(k: nat): (p: nat)
    ensures p > 0
  {
    if k == 0 then 1 else 10 * Ten(k - 1)
  }

  lemma {:induction false} DecimalLength(n: nat, k: nat)
    requires k >= 1 && n < Ten(k)
    ensures |Decimal(n)| <= k
  {
    if n >= 10 {
      assert Ten(k) == 10 * Ten(k - 1);
      assert k > 1 by { assert Ten(0) == 1; }
      DecimalLength(n / 10, k - 1);
    }
  }

  lemma Tens()
    ensures Ten(3) == 1000 && Ten(5) == 100_000 && Ten(10) == 10_000_000_000
    ensures Ten(20) == 100_000_000_000_000_000_000
  {
    assert Ten(5) == 100_000;
    assert Ten(10) == 10_000_000_000 by { assert Ten(7) == 10_000_000; }
    assert Ten(15) == 1_000_000_000_000_000 by { assert Ten(13) == 10_000_000_000_000; }
    assert Ten(18) == 1_000_000_000_000_000_000;
  }

  /** How a byte of a string is written: control characters and quotes are escaped. */
  function Escaped(c: char): (t: string)
    ensures 1 <= |t| <= 6
  {
    if c == '"' || c == '\\' then ['\\', c]
    else if c == '\n' then "\\n"
    else if c == '\r' then "\\r"
    else if c == '\t' then "\\t"
    else if c as int == 8 then "\\b"
    else if c as int == 12 then "\\f"
    else if c as int < 32 then "\\u00" + ["0123456789abcdef"[c as int / 16], "0123456789abcdef"[c as int % 16]]
    else [c]
  }

  function EscapedAll(s: string): string {
    if s == [] then [] else Escaped(s[0]) + EscapedAll(s[1..])
  }

  function Quoted(s: string): (t: string)
    ensures |t| == 2 + |EscapedAll(s)|
  {
    "\"" + EscapedAll(s) + "\""
  }

  lemma {:induction false} EscapedLength(s: string)
    ensures |s| <= |EscapedAll(s)| <= 6 * |s|
  {
    if s != [] { EscapedLength(s[1..]); }
  }

  predicate Plain(c: char) {
    c as int >= 32 && c != '"' && c != '\\'
  }

  lemma {:induction false} PlainIsNotEscaped(s: string)
    requires forall i :: 0 <= i < |s| ==> Plain(s[i])
    ensures EscapedAll(s) == s
  {
    if s != [] {
      PlainIsNotEscaped(s[1..]);
      assert s == [s[0]] + s[1..];
    }
  }

  lemma SafeIdLength(id: string)
    requires SafeId(id)
    ensures |Quoted(id)| <= 130
  {
    PlainIsNotEscaped(id);
  }

  function Boolean(b: bool): (t: string)
    ensures |t| <= 5
  {
    if b then "true" else "false"
  }

  function OptionalNumber(n: Option<int>): string
    requires n.Some? ==> n.value >= 0
  {
    if n.Some? then Decimal(n.value) else "null"
  }

  function OptionalText(s: Option<string>): string {
    if s.Some? then Quoted(s.value) else "null"
  }

  // ------------------------------------------------------------------- layout

  /** Pretty: every member on its own line, two spaces a level. */
  function Line(depth: nat): (t: string)
    ensures |t| == 1 + 2 * depth
  {
    "\n" + seq(2 * depth, _ => ' ')
  }

  function Member(depth: nat, key: string, value: string): (t: string)
    ensures |t| == 7 + 2 * depth + |key| + |value|
  {
    Line(depth + 1) + "\"" + key + "\": " + value
  }

  function Block(depth: nat, body: string): (t: string)
    ensures |t| == 3 + 2 * depth + |body|
  {
    "{" + body + Line(depth) + "}"
  }

  /** Elements of an array, the first n of them. */
  function Lines(depth: nat, items: seq<string>, n: nat): string
    requires n <= |items|
  {
    if n == 0 then ""
    else Lines(depth, items, n - 1) + (if n == 1 then "" else ",") + Line(depth + 1) + items[n - 1]
  }

  function List(depth: nat, items: seq<string>): string {
    if items == [] then "[]" else "[" + Lines(depth, items, |items|) + Line(depth) + "]"
  }

  lemma {:induction false} LinesLength(depth: nat, items: seq<string>, n: nat, most: nat)
    requires n <= |items| && forall i :: 0 <= i < n ==> |items[i]| <= most
    ensures |Lines(depth, items, n)| <= n * (most + 2 * depth + 4)
  {
    if n > 0 { LinesLength(depth, items, n - 1, most); }
  }

  lemma ScaleUp(n: nat, count: nat, size: nat)
    requires n <= count
    ensures n * size <= count * size
  {
  }

  lemma ListLength(depth: nat, items: seq<string>, count: nat, most: nat)
    requires |items| <= count && forall i :: 0 <= i < |items| ==> |items[i]| <= most
    ensures |List(depth, items)| <= 3 + 2 * depth + count * (most + 2 * depth + 4)
  {
    LinesLength(depth, items, |items|, most);
    ScaleUp(|items|, count, most + 2 * depth + 4);
  }

  /** Compact: no white space at all. */
  function Pair(key: string, value: string): (t: string)
    ensures |t| == 3 + |key| + |value|
  {
    "\"" + key + "\":" + value
  }

  function Braces(body: string): (t: string)
    ensures |t| == 2 + |body|
  {
    "{" + body + "}"
  }

  function Joined(items: seq<string>, n: nat): string
    requires n <= |items|
  {
    if n == 0 then "" else Joined(items, n - 1) + (if n == 1 then "" else ",") + items[n - 1]
  }

  function Brackets(items: seq<string>): string {
    "[" + Joined(items, |items|) + "]"
  }

  lemma {:induction false} JoinedLength(items: seq<string>, n: nat, most: nat)
    requires n <= |items| && forall i :: 0 <= i < n ==> |items[i]| <= most
    ensures |Joined(items, n)| <= n * (most + 1)
  {
    if n > 0 { JoinedLength(items, n - 1, most); }
  }

  lemma BracketsLength(items: seq<string>, count: nat, most: nat)
    requires |items| <= count && forall i :: 0 <= i < |items| ==> |items[i]| <= most
    ensures |Brackets(items)| <= 2 + count * (most + 1)
  {
    JoinedLength(items, |items|, most);
    ScaleUp(|items|, count, most + 1);
  }
}
