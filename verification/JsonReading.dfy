/**
 Reading back what is written: no two values have the same text, and no text of one
 value begins a longer text of another, as long as a delimiter or nothing follows.
 */
module JsonReading {
  import opened Basics
  import opened Json

  /** What may follow a value. */
  predicate Ends(u: string) {
    u == "" || u[0] == ',' || u[0] == '}' || u[0] == ']' || u[0] == '\n'
  }

  lemma Cancel(a: string, u: string, v: string)
    requires a + u == a + v
    ensures u == v
  {
    assert u == (a + u)[|a|..] && v == (a + v)[|a|..];
  }

  lemma SameLength(a: string, b: string, u: string, v: string)
    requires a + u == b + v && |a| == |b|
    ensures a == b && u == v
  {
    assert a == (a + u)[..|a|] && b == (b + v)[..|b|];
    Cancel(a, u, v);
  }

  lemma CommonPrefix(a: string, b: string, u: string, v: string)
    requires a + u == b + v
    ensures forall k :: 0 <= k < Min(|a|, |b|) ==> a[k] == b[k]
    ensures |a| == |b| ==> a == b && u == v
  {
    forall k | 0 <= k < Min(|a|, |b|) ensures a[k] == b[k] {
      assert (a + u)[k] == a[k] && (b + v)[k] == b[k];
    }
    if |a| == |b| {
      SameLength(a, b, u, v);
    }
  }

  lemma RunsInto(a: string, b: string, u: string, v: string)
    requires a + u == b + v && |a| < |b|
    ensures u != [] && u[0] == b[|a|]
  {
    assert |a + u| == |b + v|;
    assert (a + u)[|a|] == u[0] && (b + v)[|a|] == b[|a|];
  }

  lemma Regroup(a: string, b: string, u: string)
    ensures (a + b) + u == a + (b + u)
  {
  }

  // ------------------------------------------------------------------ numbers

  predicate Digit(c: char) {
    '0' <= c <= '9'
  }

  lemma DigitsDiffer(i: nat, j: nat)
    requires i < 10 && j < 10 && "0123456789"[i] == "0123456789"[j]
    ensures i == j
  {
  }

  lemma {:induction false} DecimalDigits(n: nat)
    ensures forall k :: 0 <= k < |Decimal(n)| ==> Digit(Decimal(n)[k])
    ensures |Decimal(n)| == 1 <==> n < 10
  {
    if n >= 10 {
      DecimalDigits(n / 10);
    }
  }

  lemma {:induction false} DecimalsDiffer(m: nat, n: nat)
    requires Decimal(m) == Decimal(n)
    ensures m == n
  {
    DecimalDigits(m);
    DecimalDigits(n);
    if m < 10 {
      DigitsDiffer(m, n);
    } else {
      var a, b := Decimal(m / 10), Decimal(n / 10);
      var d, e := ["0123456789"[m % 10]], ["0123456789"[n % 10]];
      assert a + d == b + e && |a| == |b|;
      SameLength(a, b, d, e);
      DecimalsDiffer(m / 10, n / 10);
      DigitsDiffer(m % 10, n % 10);
    }
  }

  lemma DigitsRunOn(m: nat, n: nat, u: string, v: string)
    requires Decimal(m) + u == Decimal(n) + v && Ends(u)
    ensures |Decimal(n)| <= |Decimal(m)|
  {
    var a, b := Decimal(m), Decimal(n);
    DecimalDigits(n);
    if |a| < |b| {
      RunsInto(a, b, u, v);
    }
  }

  lemma DecimalReads(m: nat, n: nat, u: string, v: string)
    requires Decimal(m) + u == Decimal(n) + v && Ends(u) && Ends(v)
    ensures m == n && u == v
  {
    DigitsRunOn(m, n, u, v);
    DigitsRunOn(n, m, v, u);
    SameLength(Decimal(m), Decimal(n), u, v);
    DecimalsDiffer(m, n);
  }

  lemma NullIsNoNumber(n: nat, u: string, v: string)
    ensures "null" + u != Decimal(n) + v
  {
    DecimalDigits(n);
    assert ("null" + u)[0] == 'n' && (Decimal(n) + v)[0] == Decimal(n)[0];
  }

  lemma OptionalNumberReads(m: Option<int>, n: Option<int>, u: string, v: string)
    requires (m.Some? ==> m.value >= 0) && (n.Some? ==> n.value >= 0)
    requires OptionalNumber(m) + u == OptionalNumber(n) + v && Ends(u) && Ends(v)
    ensures m == n && u == v
  {
    if m.Some? && n.Some? {
      DecimalReads(m.value, n.value, u, v);
    } else if m.Some? {
      NullIsNoNumber(m.value, v, u);
    } else if n.Some? {
      NullIsNoNumber(n.value, u, v);
    } else {
      Cancel("null", u, v);
    }
  }

  // ------------------------------------------------------------------ strings

  lemma HexDiffer(i: nat, j: nat)
    requires i < 16 && j < 16 && "0123456789abcdef"[i] == "0123456789abcdef"[j]
    ensures i == j
  {
  }

  lemma EscapesDiffer(c: char, d: char, u: string, v: string)
    requires Escaped(c) + u == Escaped(d) + v
    ensures c == d && u == v
  {
    var a, b := Escaped(c), Escaped(d);
    CommonPrefix(a, b, u, v);
    assert a[0] == b[0];
    if a[0] == '\\' {
      assert a[1] == b[1];
      assert |a| == |b|;
      if |a| == 6 {
        assert a[4] == b[4] && a[5] == b[5];
        HexDiffer(c as int / 16, d as int / 16);
        HexDiffer(c as int % 16, d as int % 16);
      }
    }
  }

  lemma QuoteEndsString(t: string, u: string, v: string)
    requires t != []
    ensures EscapedAll([]) + ("\"" + u) != EscapedAll(t) + v
  {
    assert (EscapedAll([]) + ("\"" + u))[0] == '"';
    assert (EscapedAll(t) + v)[0] == Escaped(t[0])[0];
  }

  lemma {:induction false} EscapedReads(s: string, t: string, u: string, v: string)
    requires EscapedAll(s) + ("\"" + u) == EscapedAll(t) + ("\"" + v)
    ensures s == t && u == v
  {
    if s == [] && t == [] {
      assert "\"" + u == EscapedAll(s) + ("\"" + u);
      assert "\"" + v == EscapedAll(t) + ("\"" + v);
      Cancel("\"", u, v);
    } else if s == [] {
      QuoteEndsString(t, u, "\"" + v);
    } else if t == [] {
      QuoteEndsString(s, v, "\"" + u);
    } else {
      Regroup(Escaped(s[0]), EscapedAll(s[1..]), "\"" + u);
      Regroup(Escaped(t[0]), EscapedAll(t[1..]), "\"" + v);
      EscapesDiffer(s[0], t[0], EscapedAll(s[1..]) + ("\"" + u), EscapedAll(t[1..]) + ("\"" + v));
      EscapedReads(s[1..], t[1..], u, v);
      assert s == [s[0]] + s[1..] && t == [t[0]] + t[1..];
    }
  }

  lemma QuotedSplits(s: string, u: string)
    ensures Quoted(s) + u == "\"" + (EscapedAll(s) + ("\"" + u))
  {
  }

  lemma QuotedReads(s: string, t: string, u: string, v: string)
    requires Quoted(s) + u == Quoted(t) + v
    ensures s == t && u == v
  {
    QuotedSplits(s, u);
    QuotedSplits(t, v);
    Cancel("\"", EscapedAll(s) + ("\"" + u), EscapedAll(t) + ("\"" + v));
    EscapedReads(s, t, u, v);
  }

  lemma NullIsNotQuoted(s: string, u: string, v: string)
    ensures "null" + u != Quoted(s) + v
  {
    assert ("null" + u)[0] == 'n' && (Quoted(s) + v)[0] == '"';
  }

  lemma OptionalTextReads(s: Option<string>, t: Option<string>, u: string, v: string)
    requires OptionalText(s) + u == OptionalText(t) + v
    ensures s == t && u == v
  {
    if s.Some? && t.Some? {
      QuotedReads(s.value, t.value, u, v);
    } else if s.Some? {
      NullIsNotQuoted(s.value, v, u);
    } else if t.Some? {
      NullIsNotQuoted(t.value, u, v);
    } else {
      Cancel("null", u, v);
    }
  }

  // --------------------------------------------------------- texts told apart

  /** Neither text begins the other, wherever a value may end. */
  ghost predicate Apart(x: string, y: string) {
    forall u, v :: Ends(u) && Ends(v) && x + u == y + v ==> x == y
  }

  /** The text gives the value back. */
  ghost predicate Reads<T>(a: T, b: T, x: string, y: string) {
    Apart(x, y) && (x == y ==> a == b)
  }

  lemma DifferAt(x: string, y: string, k: nat)
    requires k < |x| && k < |y| && x[k] != y[k]
    ensures Apart(x, y)
  {
    forall u, v | Ends(u) && Ends(v) ensures x + u != y + v {
      assert (x + u)[k] == x[k] && (y + v)[k] == y[k];
    }
  }

  lemma ApartUnless(x: string, y: string)
    requires forall u, v :: Ends(u) && Ends(v) ==> x + u != y + v
    ensures Apart(x, y) && x != y
  {
    assert Ends("") && x + "" == x && y + "" == y;
  }

  lemma SameIsApart(x: string)
    ensures Apart(x, x)
  {
  }

  lemma NumberIsRead(m: nat, n: nat)
    ensures Reads(m, n, Decimal(m), Decimal(n))
  {
    forall u, v | Ends(u) && Ends(v) && Decimal(m) + u == Decimal(n) + v ensures m == n {
      DecimalReads(m, n, u, v);
    }
    if Decimal(m) == Decimal(n) {
      DecimalsDiffer(m, n);
    }
  }

  lemma OptionalNumberIsRead(m: Option<int>, n: Option<int>)
    requires (m.Some? ==> m.value >= 0) && (n.Some? ==> n.value >= 0)
    ensures Reads(m, n, OptionalNumber(m), OptionalNumber(n))
  {
    forall u, v | Ends(u) && Ends(v) && OptionalNumber(m) + u == OptionalNumber(n) + v ensures m == n {
      OptionalNumberReads(m, n, u, v);
    }
    if OptionalNumber(m) == OptionalNumber(n) {
      OptionalNumberReads(m, n, "", "");
    }
  }

  lemma TextIsRead(s: string, t: string)
    ensures Reads(s, t, Quoted(s), Quoted(t))
  {
    forall u, v | Quoted(s) + u == Quoted(t) + v ensures s == t {
      QuotedReads(s, t, u, v);
    }
    if Quoted(s) == Quoted(t) {
      QuotedReads(s, t, "", "");
    }
  }

  lemma OptionalTextIsRead(s: Option<string>, t: Option<string>)
    ensures Reads(s, t, OptionalText(s), OptionalText(t))
  {
    forall u, v | OptionalText(s) + u == OptionalText(t) + v ensures s == t {
      OptionalTextReads(s, t, u, v);
    }
    if OptionalText(s) == OptionalText(t) {
      OptionalTextReads(s, t, "", "");
    }
  }

  lemma BooleanIsRead(a: bool, b: bool)
    ensures Reads(a, b, Boolean(a), Boolean(b))
  {
    if a != b {
      DifferAt(Boolean(a), Boolean(b), 0);
    }
  }

  // ------------------------------------------------------------------- chains

  /** The first n values, each behind its own fixed text. */
  function Chain(fixed: seq<string>, values: seq<string>, n: nat): string
    requires n <= |fixed| && n <= |values|
  {
    if n == 0 then "" else Chain(fixed, values, n - 1) + (fixed[n - 1] + values[n - 1])
  }

  predicate Commas(fixed: seq<string>) {
    forall i :: 0 < i < |fixed| ==> fixed[i] != "" && fixed[i][0] == ','
  }

  lemma BehindFixed(fixed: string, x: string, y: string, u: string, v: string)
    requires fixed + x + u == fixed + y + v
    ensures x + u == y + v
  {
    Regroup(fixed, x, u);
    Regroup(fixed, y, v);
    Cancel(fixed, x + u, y + v);
  }

  lemma {:induction false} ChainReads(fixed: seq<string>, a: seq<string>, b: seq<string>, n: nat, u: string, v: string)
    requires n <= |fixed| && n <= |a| && n <= |b| && Commas(fixed) && Ends(u) && Ends(v)
    requires forall i :: 0 <= i < n ==> Apart(a[i], b[i])
    requires Chain(fixed, a, n) + u == Chain(fixed, b, n) + v
    ensures (forall i :: 0 <= i < n ==> a[i] == b[i]) && u == v
  {
    if n == 0 {
      Cancel("", u, v);
    } else {
      var m := n - 1;
      var x, y := fixed[m] + a[m], fixed[m] + b[m];
      Regroup(Chain(fixed, a, m), x, u);
      Regroup(Chain(fixed, b, m), y, v);
      if m == 0 {
        Cancel("", x + u, y + v);
      } else {
        assert Ends(x + u) && Ends(y + v);
        ChainReads(fixed, a, b, m, x + u, y + v);
      }
      BehindFixed(fixed[m], a[m], b[m], u, v);
      assert Apart(a[m], b[m]);
      Cancel(a[m], u, v);
    }
  }

  lemma ChainGivesBack(fixed: seq<string>, a: seq<string>, b: seq<string>, u: string, v: string)
    requires |fixed| == |a| == |b| && Commas(fixed) && (forall i :: 0 <= i < |a| ==> Apart(a[i], b[i]))
    requires Ends(u) && Ends(v) && Chain(fixed, a, |a|) + u == Chain(fixed, b, |b|) + v
    ensures a == b
  {
    ChainReads(fixed, a, b, |a|, u, v);
  }

  lemma ChainsDiffer(fixed: seq<string>, a: seq<string>, b: seq<string>, u: string, v: string)
    requires |fixed| == |a| == |b| && Commas(fixed) && (forall i :: 0 <= i < |a| ==> Apart(a[i], b[i]))
    requires Ends(u) && Ends(v) && a != b
    ensures Chain(fixed, a, |a|) + u != Chain(fixed, b, |b|) + v
  {
    if Chain(fixed, a, |a|) + u == Chain(fixed, b, |b|) + v {
      ChainGivesBack(fixed, a, b, u, v);
    }
  }

  /** Chains of values that are apart are apart, and give the values back. */
  lemma ChainIsRead(fixed: seq<string>, a: seq<string>, b: seq<string>)
    requires |fixed| == |a| == |b| && Commas(fixed) && forall i :: 0 <= i < |a| ==> Apart(a[i], b[i])
    ensures Reads(a, b, Chain(fixed, a, |a|), Chain(fixed, b, |b|))
  {
    var x, y := Chain(fixed, a, |a|), Chain(fixed, b, |b|);
    if a == b {
      SameIsApart(x);
    } else {
      forall u, v | Ends(u) && Ends(v) ensures x + u != y + v {
        ChainsDiffer(fixed, a, b, u, v);
      }
      ApartUnless(x, y);
    }
  }

  /** Two texts stay apart inside the same fixed beginning and end. */
  lemma InsideIsRead(open: string, close: string, x: string, y: string)
    requires Ends(close) && close != "" && Apart(x, y)
    ensures Reads(x, y, open + x + close, open + y + close)
  {
    forall u, v | open + x + close + u == open + y + close + v ensures x == y {
      Regroup(open + x, close, u);
      Regroup(open + y, close, v);
      BehindFixed(open, x, y, close + u, close + v);
    }
    if open + x + close == open + y + close {
      assert open + x + close + "" == open + y + close + "";
    }
  }

  lemma BlockIsRead(depth: nat, x: string, y: string)
    requires Apart(x, y)
    ensures Reads(x, y, Block(depth, x), Block(depth, y))
  {
    InsideIsRead("{", Line(depth) + "}", x, y);
    assert Block(depth, x) == "{" + x + (Line(depth) + "}");
    assert Block(depth, y) == "{" + y + (Line(depth) + "}");
  }

  // ------------------------------------------------------ members of an object

  /** Commas go in front of all but the first. */
  function Separated(keys: seq<string>): (fixed: seq<string>)
    ensures |fixed| == |keys| && Commas(fixed)
  {
    seq(|keys|, i requires 0 <= i < |keys| => if i == 0 then keys[0] else "," + keys[i])
  }

  lemma {:induction false} ChainOfPrefix(fixed: seq<string>, values: seq<string>, f: seq<string>, v: seq<string>,
                                         n: nat)
    requires n <= |fixed| && n <= |values| && fixed <= f && values <= v
    ensures Chain(fixed, values, n) == Chain(f, v, n)
  {
    if n > 0 {
      ChainOfPrefix(fixed, values, f, v, n - 1);
    }
  }

  lemma OneMember(p: string, v: string)
    ensures Chain(Separated([p]), [v], 1) == p + v
  {
    assert Chain(Separated([p]), [v], 1) == Chain(Separated([p]), [v], 0) + (p + v);
  }

  lemma OneMore(keys: seq<string>, values: seq<string>, p: string, v: string)
    requires |keys| == |values| > 0
    ensures Chain(Separated(keys + [p]), values + [v], |keys| + 1)
         == Chain(Separated(keys), values, |keys|) + "," + (p + v)
  {
    var n, f := |keys|, Separated(keys + [p]);
    ChainOfPrefix(Separated(keys), values, f, values + [v], n);
    var before := Chain(Separated(keys), values, n);
    assert f[n] + (values + [v])[n] == "," + (p + v);
    assert before + ("," + (p + v)) == before + "," + (p + v);
  }

  /** Two, three, four or five members, as they are written. */
  function Two(k: seq<string>, v: seq<string>): string
    requires |k| == |v| == 2
  {
    k[0] + v[0] + "," + (k[1] + v[1])
  }

  function Three(k: seq<string>, v: seq<string>): string
    requires |k| == |v| == 3
  {
    k[0] + v[0] + "," + (k[1] + v[1]) + "," + (k[2] + v[2])
  }

  function Four(k: seq<string>, v: seq<string>): string
    requires |k| == |v| == 4
  {
    k[0] + v[0] + "," + (k[1] + v[1]) + "," + (k[2] + v[2]) + "," + (k[3] + v[3])
  }

  function Five(k: seq<string>, v: seq<string>): string
    requires |k| == |v| == 5
  {
    k[0] + v[0] + "," + (k[1] + v[1]) + "," + (k[2] + v[2]) + "," + (k[3] + v[3]) + "," + (k[4] + v[4])
  }

  lemma TwoIsChain(k: seq<string>, v: seq<string>)
    requires |k| == |v| == 2
    ensures Two(k, v) == Chain(Separated(k), v, 2)
  {
    OneMember(k[0], v[0]);
    assert k == [k[0]] + [k[1]] && v == [v[0]] + [v[1]];
    OneMore([k[0]], [v[0]], k[1], v[1]);
  }

  lemma ThreeIsChain(k: seq<string>, v: seq<string>)
    requires |k| == |v| == 3
    ensures Three(k, v) == Chain(Separated(k), v, 3)
  {
    TwoIsChain(k[..2], v[..2]);
    assert k == k[..2] + [k[2]] && v == v[..2] + [v[2]];
    OneMore(k[..2], v[..2], k[2], v[2]);
  }

  lemma FourIsChain(k: seq<string>, v: seq<string>)
    requires |k| == |v| == 4
    ensures Four(k, v) == Chain(Separated(k), v, 4)
  {
    ThreeIsChain(k[..3], v[..3]);
    assert k == k[..3] + [k[3]] && v == v[..3] + [v[3]];
    OneMore(k[..3], v[..3], k[3], v[3]);
  }

  lemma FiveIsChain(k: seq<string>, v: seq<string>)
    requires |k| == |v| == 5
    ensures Five(k, v) == Chain(Separated(k), v, 5)
  {
    FourIsChain(k[..4], v[..4]);
    assert k == k[..4] + [k[4]] && v == v[..4] + [v[4]];
    OneMore(k[..4], v[..4], k[4], v[4]);
  }

  lemma TwoAreRead(k: seq<string>, x: string, y: string, x': string, y': string)
    requires |k| == 2 && Apart(x, x') && Apart(y, y')
    ensures Reads((x, y), (x', y'), Two(k, [x, y]), Two(k, [x', y']))
  {
    var a, b := [x, y], [x', y'];
    TwoIsChain(k, a);
    TwoIsChain(k, b);
    ChainIsRead(Separated(k), a, b);
    if a == b {
      assert a[0] == b[0] && a[1] == b[1];
    }
  }

  lemma ThreeAreRead(k: seq<string>, x: string, y: string, z: string, x': string, y': string, z': string)
    requires |k| == 3 && Apart(x, x') && Apart(y, y') && Apart(z, z')
    ensures Reads((x, y, z), (x', y', z'), Three(k, [x, y, z]), Three(k, [x', y', z']))
  {
    var a, b := [x, y, z], [x', y', z'];
    ThreeIsChain(k, a);
    ThreeIsChain(k, b);
    ChainIsRead(Separated(k), a, b);
    if a == b {
      assert a[0] == b[0] && a[1] == b[1] && a[2] == b[2];
    }
  }

  lemma FourAreRead(k: seq<string>, w: string, x: string, y: string, z: string,
                    w': string, x': string, y': string, z': string)
    requires |k| == 4 && Apart(w, w') && Apart(x, x') && Apart(y, y') && Apart(z, z')
    ensures Reads((w, x, y, z), (w', x', y', z'), Four(k, [w, x, y, z]), Four(k, [w', x', y', z']))
  {
    var a, b := [w, x, y, z], [w', x', y', z'];
    FourIsChain(k, a);
    FourIsChain(k, b);
    ChainIsRead(Separated(k), a, b);
    if a == b {
      assert a[0] == b[0] && a[1] == b[1] && a[2] == b[2] && a[3] == b[3];
    }
  }

  lemma FiveAreRead(k: seq<string>, v: string, w: string, x: string, y: string, z: string,
                    v': string, w': string, x': string, y': string, z': string)
    requires |k| == 5 && Apart(v, v') && Apart(w, w') && Apart(x, x') && Apart(y, y') && Apart(z, z')
    ensures Reads((v, w, x, y, z), (v', w', x', y', z'), Five(k, [v, w, x, y, z]), Five(k, [v', w', x', y', z']))
  {
    var a, b := [v, w, x, y, z], [v', w', x', y', z'];
    FiveIsChain(k, a);
    FiveIsChain(k, b);
    ChainIsRead(Separated(k), a, b);
    if a == b {
      assert a[0] == b[0] && a[1] == b[1] && a[2] == b[2] && a[3] == b[3] && a[4] == b[4];
    }
  }

  /** Two groups of members with a comma between them. */
  lemma GroupsAreRead(a: string, b: string, c: string, e: string)
    requires Apart(a, c) && Apart(b, e)
    ensures Reads((a, b), (c, e), a + "," + b, c + "," + e)
  {
    var none := ["", ""];
    TwoAreRead(none, a, b, c, e);
    assert "" + a == a && "" + b == b && "" + c == c && "" + e == e;
    assert Two(none, [a, b]) == a + "," + b && Two(none, [c, e]) == c + "," + e;
  }

  // ------------------------------------------------------------------- arrays

  /** Behind a chain's first n values a longer chain goes on with a comma. */
  lemma {:induction false} ChainGoesOn(fixed: seq<string>, values: seq<string>, n: nat, m: nat) returns (rest: string)
    requires 0 < n < m && m <= |fixed| && m <= |values| && Commas(fixed)
    ensures Chain(fixed, values, m) == Chain(fixed, values, n) + rest && rest != "" && rest[0] == ','
  {
    if n == m - 1 {
      rest := fixed[n] + values[n];
    } else {
      var before := ChainGoesOn(fixed, values, n, m - 1);
      rest := before + (fixed[m - 1] + values[m - 1]);
      Regroup(Chain(fixed, values, n), before, fixed[m - 1] + values[m - 1]);
    }
  }

  /** An array ends where its elements end: arrays of different lengths have different texts. */
  lemma LongerArrayDiffers(fixed: seq<string>, a: seq<string>, b: seq<string>, u: string, v: string)
    requires 0 < |a| < |b| <= |fixed| && Commas(fixed) && Ends(u) && Ends(v) && u != "" && u[0] != ','
    requires forall i :: 0 <= i < |a| ==> Apart(a[i], b[i])
    ensures Chain(fixed, a, |a|) + u != Chain(fixed, b, |b|) + v
  {
    if Chain(fixed, a, |a|) + u == Chain(fixed, b, |b|) + v {
      var rest := ChainGoesOn(fixed, b, |a|, |b|);
      Regroup(Chain(fixed, b, |a|), rest, v);
      ChainReads(fixed, a, b, |a|, u, rest + v);
    }
  }

  /** Pretty: every element on its own line. */
  function LineStarts(depth: nat, n: nat): (fixed: seq<string>)
    ensures |fixed| == n && Commas(fixed)
  {
    seq(n, i requires 0 <= i < n => (if i == 0 then "" else ",") + Line(depth + 1))
  }

  lemma {:induction false} LinesChain(depth: nat, items: seq<string>, n: nat, count: nat)
    requires n <= |items| && n <= count
    ensures Lines(depth, items, n) == Chain(LineStarts(depth, count), items, n)
  {
    if n > 0 {
      LinesChain(depth, items, n - 1, count);
      assert LineStarts(depth, count)[n - 1] == (if n == 1 then "" else ",") + Line(depth + 1);
    }
  }

  lemma Unwraps(open: string, x: string, y: string, close: string, u: string, v: string)
    requires open + x + close + u == open + y + close + v
    ensures x + (close + u) == y + (close + v)
  {
    Regroup(open + x, close, u);
    Regroup(open + y, close, v);
    BehindFixed(open, x, y, close + u, close + v);
  }

  lemma Unequal(open: string, x: string, y: string, close: string, u: string, v: string)
    requires x + (close + u) != y + (close + v)
    ensures open + x + close + u != open + y + close + v
  {
    if open + x + close + u == open + y + close + v {
      Unwraps(open, x, y, close, u, v);
    }
  }

  /** Arrays with different numbers of elements. */
  lemma LongerIsApart(open: string, fixed: seq<string>, a: seq<string>, b: seq<string>, close: string)
    requires 0 < |a| < |b| <= |fixed| && Commas(fixed) && close != "" && close[0] != ',' && Ends(close)
    requires forall i :: 0 <= i < |a| ==> Apart(a[i], b[i])
    ensures var x, y := open + Chain(fixed, a, |a|) + close, open + Chain(fixed, b, |b|) + close;
      Apart(x, y) && x != y
  {
    var x, y := Chain(fixed, a, |a|), Chain(fixed, b, |b|);
    forall u, v | Ends(u) && Ends(v) ensures open + x + close + u != open + y + close + v {
      LongerArrayDiffers(fixed, a, b, close + u, close + v);
      Unequal(open, x, y, close, u, v);
    }
    ApartUnless(open + x + close, open + y + close);
  }

  lemma ApartSwaps(x: string, y: string)
    requires Apart(x, y)
    ensures Apart(y, x)
  {
  }

  /** Arrays of elements that are apart, not empty, in any numbers. */
  lemma FullArrayIsRead(open: string, fixed: seq<string>, a: seq<string>, b: seq<string>, close: string)
    requires 0 < |a| <= |fixed| && 0 < |b| <= |fixed| && Commas(fixed)
    requires close != "" && close[0] != ',' && Ends(close)
    requires forall i :: 0 <= i < Min(|a|, |b|) ==> Apart(a[i], b[i])
    ensures Reads(a, b, open + Chain(fixed, a, |a|) + close, open + Chain(fixed, b, |b|) + close)
  {
    if |a| < |b| {
      LongerIsApart(open, fixed, a, b, close);
    } else if |b| < |a| {
      forall i | 0 <= i < |b| ensures Apart(b[i], a[i]) {
        ApartSwaps(a[i], b[i]);
      }
      LongerIsApart(open, fixed, b, a, close);
      ApartSwaps(open + Chain(fixed, b, |b|) + close, open + Chain(fixed, a, |a|) + close);
    } else {
      var f := fixed[..|a|];
      ChainOfPrefix(f, a, fixed, a, |a|);
      ChainOfPrefix(f, b, fixed, b, |b|);
      ChainIsRead(f, a, b);
      InsideIsRead(open, close, Chain(f, a, |a|), Chain(f, b, |b|));
    }
  }

  lemma ListChain(depth: nat, items: seq<string>, count: nat)
    requires 0 < |items| <= count
    ensures List(depth, items) == "[" + Chain(LineStarts(depth, count), items, |items|) + (Line(depth) + "]")
    ensures List(depth, items)[1] == '\n'
  {
    LinesChain(depth, items, |items|, count);
    LinesStart(depth, items, |items|);
    assert List(depth, items) == "[" + Lines(depth, items, |items|) + (Line(depth) + "]");
  }

  lemma {:induction false} LinesStart(depth: nat, items: seq<string>, n: nat)
    requires 0 < n <= |items|
    ensures Lines(depth, items, n) != "" && Lines(depth, items, n)[0] == '\n'
  {
    if n > 1 {
      LinesStart(depth, items, n - 1);
    }
  }

  /** A pretty array gives its elements back. */
  lemma ListIsRead(depth: nat, a: seq<string>, b: seq<string>)
    requires forall i :: 0 <= i < Min(|a|, |b|) ==> Apart(a[i], b[i])
    ensures Reads(a, b, List(depth, a), List(depth, b))
  {
    var count := |a| + |b|;
    if a != [] {
      ListChain(depth, a, count);
    }
    if b != [] {
      ListChain(depth, b, count);
    }
    if a != [] && b != [] {
      FullArrayIsRead("[", LineStarts(depth, count), a, b, Line(depth) + "]");
    } else if a != [] || b != [] {
      DifferAt(List(depth, a), List(depth, b), 1);
    }
  }

  // ----------------------------------------------------------- compact arrays

  function Between(n: nat): (fixed: seq<string>)
    ensures |fixed| == n && Commas(fixed)
  {
    seq(n, i requires 0 <= i < n => if i == 0 then "" else ",")
  }

  lemma {:induction false} JoinedChain(items: seq<string>, n: nat, count: nat)
    requires n <= |items| && n <= count
    ensures Joined(items, n) == Chain(Between(count), items, n)
  {
    if n > 0 {
      JoinedChain(items, n - 1, count);
      assert Between(count)[n - 1] == if n == 1 then "" else ",";
    }
  }

  lemma {:induction false} JoinedStart(items: seq<string>, n: nat)
    requires 0 < n <= |items| && items[0] != ""
    ensures Joined(items, n) != "" && Joined(items, n)[0] == items[0][0]
  {
    if n > 1 {
      JoinedStart(items, n - 1);
    }
  }

  lemma BracketsChain(items: seq<string>, count: nat)
    requires 0 < |items| <= count && items[0] != ""
    ensures Brackets(items) == "[" + Chain(Between(count), items, |items|) + "]"
    ensures Brackets(items)[1] == items[0][0]
  {
    JoinedChain(items, |items|, count);
    JoinedStart(items, |items|);
  }

  /** A compact array gives its elements back, if none begins like its end. */
  lemma BracketsIsRead(a: seq<string>, b: seq<string>)
    requires forall i :: 0 <= i < Min(|a|, |b|) ==> Apart(a[i], b[i])
    requires forall i :: 0 <= i < |a| ==> a[i] != "" && a[i][0] != ']'
    requires forall i :: 0 <= i < |b| ==> b[i] != "" && b[i][0] != ']'
    ensures Reads(a, b, Brackets(a), Brackets(b))
  {
    var count := |a| + |b|;
    if a != [] {
      BracketsChain(a, count);
    }
    if b != [] {
      BracketsChain(b, count);
    }
    if a != [] && b != [] {
      FullArrayIsRead("[", Between(count), a, b, "]");
    } else if a != [] || b != [] {
      DifferAt(Brackets(a), Brackets(b), 1);
    }
  }
}
