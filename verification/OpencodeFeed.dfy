/** The OpenCode producer's snapshot, as assembled from one sweep of the SDK. */
module OpencodeFeed {
  import opened Basics
  import opened Assistant
  import opened Feeds

  const MAX_SAFE_INTEGER := 0x1f_ffff_ffff_ffff

  /** A JavaScript value offered as a time: a safe integer, or anything else. */
  datatype Time = Safe(n: int) | Other

  /** `timestamp`: a plausible time, or zero. */
  function Timestamp(value: Time, now: nat): nat {
    if value.Safe? && 0 <= value.n <= now + 5000 then value.n else 0
  }

  function Latest(times: seq<Time>, now: nat): (t: nat)
    ensures t <= now + 5000
    ensures forall i :: 0 <= i < |times| ==> Timestamp(times[i], now) <= t
    ensures t == 0 || exists i :: 0 <= i < |times| && Timestamp(times[i], now) == t
  {
    if times == [] then 0
    else
      var n := |times| - 1;
      var before := Latest(times[..n], now);
      if before < Timestamp(times[n], now) then Timestamp(times[n], now) else before
  }

  /** Token counts of the last response and the model's context limit, where finite. */
  datatype Usage = Usage(openai: bool, limit: Option<real>, tokens: seq<Option<real>>)

  function Sum(tokens: seq<Option<real>>): (s: real)
    requires forall i :: 0 <= i < |tokens| ==> tokens[i].Some? && tokens[i].value >= 0.0
    ensures s >= 0.0
  {
    if tokens == [] then 0.0 else Sum(tokens[..|tokens| - 1]) + tokens[|tokens| - 1].value
  }

  /** The right provider, a finite positive limit, and finite counts that are not negative. */
  predicate Usable(u: Usage) {
    && u.openai && u.limit.Some? && u.limit.value > 0.0
    && forall i :: 0 <= i < |u.tokens| ==> u.tokens[i].Some? && u.tokens[i].value >= 0.0
  }

  function Used(u: Usage): (percent: real)
    requires Usable(u)
    ensures percent >= 0.0
  {
    Ratio(Sum(u.tokens), u.limit.value);
    100.0 * Sum(u.tokens) / u.limit.value
  }

  lemma Ratio(sum: real, limit: real)
    requires sum >= 0.0 && limit > 0.0
    ensures 100.0 * sum / limit >= 0.0
  {
  }

  /** A percentage exactly for usable counts below 1000.5 %, and then the nearest one. */
  function ContextPercent(u: Usage): (r: Option<u16>)
    ensures r.Some? <==> Usable(u) && Used(u) < 1000.5
    ensures r.Some? ==> r.value <= 1000 && r.value as real - 0.5 <= Used(u) < r.value as real + 0.5
  {
    if !u.openai || u.limit.None? || u.limit.value <= 0.0 then None
    else if exists i :: 0 <= i < |u.tokens| && (u.tokens[i].None? || u.tokens[i].value < 0.0) then None
    else
      var percent := (Used(u) + 0.5).Floor;
      if percent <= 1000 then Some(percent) else None
  }

  /** A session of the sweep, and what its two message queries gave. */
  datatype Candidate = Candidate(
    id: string, child: bool, archived: bool, here: bool, openai: bool,
    fetched: bool, usage: Usage, running: bool, times: seq<Time>)

  predicate Wanted(c: Candidate) {
    SafeId(c.id) && !c.child && !c.archived && c.here && c.openai && c.fetched
  }

  function Assemble(cs: seq<Candidate>, observed: nat): (ss: seq<FeedSession>)
    requires observed <= MAX_SAFE_INTEGER
    ensures forall i :: 0 <= i < |ss| ==>
      SafeId(ss[i].sessionId) && ss[i].parentId.None? && ss[i].lastActivity <= observed + 5000
      && (ss[i].contextPercent.Some? ==> ss[i].contextPercent.value <= 1000)
  {
    if cs == [] then []
    else
      var n := |cs| - 1;
      var c := cs[n];
      if !Wanted(c) then Assemble(cs[..n], observed)
      else
        Assemble(cs[..n], observed)
        + [FeedSession(c.id, None, ContextPercent(c.usage), c.running, Latest(c.times, observed))]
  }

  /** Latest activity first; `tie` orders ids among equals. */
  function ActivityFirst(tie: (string, string) -> bool): (FeedSession, FeedSession) -> bool {
    (a: FeedSession, b: FeedSession) =>
      a.lastActivity > b.lastActivity || (a.lastActivity == b.lastActivity && tie(a.sessionId, b.sessionId))
  }

  const MAX_PUBLISHED := 16

  function Snapshot(instance: string, observed: nat, cs: seq<Candidate>, tie: (string, string) -> bool): Feed
    requires observed <= MAX_SAFE_INTEGER
  {
    var sorted := StableSort(Assemble(cs, observed), ActivityFirst(tie));
    Feed(1, instance, OpencodeOpenai, observed, if |sorted| > MAX_PUBLISHED then sorted[..MAX_PUBLISHED] else sorted)
  }

  /** The session says of a candidate what its sweep gave: context, activity, and whether it runs. */
  predicate SaysOf(s: FeedSession, c: Candidate, observed: nat) {
    && s.sessionId == c.id && s.parentId.None? && s.busy == c.running
    && s.contextPercent == ContextPercent(c.usage) && s.lastActivity == Latest(c.times, observed)
  }

  lemma {:induction false} AssembledExact(cs: seq<Candidate>, observed: nat, s: FeedSession)
    requires observed <= MAX_SAFE_INTEGER
    ensures s in Assemble(cs, observed) <==> exists c :: c in cs && Wanted(c) && SaysOf(s, c, observed)
  {
    if cs != [] {
      var n := |cs| - 1;
      AssembledExact(cs[..n], observed, s);
      assert cs == cs[..n] + [cs[n]];
      assert cs[n] in cs;
    }
  }

  ghost predicate ByLastActivity(ss: seq<FeedSession>) {
    forall i, j :: 0 <= i < j < |ss| ==> ss[i].lastActivity >= ss[j].lastActivity
  }

  lemma {:induction false} InsertByActivity(x: FeedSession, ss: seq<FeedSession>, tie: (string, string) -> bool)
    requires ByLastActivity(ss)
    ensures ByLastActivity(Insert(x, ss, ActivityFirst(tie)))
  {
    if ss != [] && !ActivityFirst(tie)(x, ss[0]) {
      InsertByActivity(x, ss[1..], tie);
      InsertMultiset(x, ss[1..], ActivityFirst(tie));
      var t := Insert(x, ss[1..], ActivityFirst(tie));
      forall i | 0 <= i < |t| ensures ss[0].lastActivity >= t[i].lastActivity {
        assert t[i] in multiset(t);
        if t[i] != x {
          assert t[i] in ss[1..];
        }
      }
    }
  }

  lemma {:induction false} SortsByActivity(ss: seq<FeedSession>, tie: (string, string) -> bool)
    ensures ByLastActivity(StableSort(ss, ActivityFirst(tie)))
  {
    if ss != [] {
      SortsByActivity(ss[1..], tie);
      InsertByActivity(ss[0], StableSort(ss[1..], ActivityFirst(tie)), tie);
    }
  }

  /**
   A snapshot holds at most sixteen sessions, most active first, each what the sweep
   says of a wanted candidate; what it says of another one is left out only behind
   sixteen that are at least as active.
   */
  lemma SnapshotExact(instance: string, observed: nat, cs: seq<Candidate>, tie: (string, string) -> bool)
    requires observed <= MAX_SAFE_INTEGER
    ensures var out := Snapshot(instance, observed, cs, tie).sessions;
      && |out| <= 16 && ByLastActivity(out)
      && (forall s :: s in out ==> exists c :: c in cs && Wanted(c) && SaysOf(s, c, observed))
      && (forall s: FeedSession, c :: c in cs && Wanted(c) && SaysOf(s, c, observed) && s !in out ==>
            |out| == 16 && forall t :: t in out ==> s.lastActivity <= t.lastActivity)
  {
    var sorted := StableSort(Assemble(cs, observed), ActivityFirst(tie));
    var out := Snapshot(instance, observed, cs, tie).sessions;
    SortsByActivity(Assemble(cs, observed), tie);
    forall s | s in out ensures exists c :: c in cs && Wanted(c) && SaysOf(s, c, observed) {
      SortMembers(Assemble(cs, observed), ActivityFirst(tie), s);
      AssembledExact(cs, observed, s);
    }
    forall s: FeedSession, c | c in cs && Wanted(c) && SaysOf(s, c, observed) && s !in out
      ensures |out| == 16 && forall t :: t in out ==> s.lastActivity <= t.lastActivity
    {
      AssembledExact(cs, observed, s);
      SortMembers(Assemble(cs, observed), ActivityFirst(tie), s);
      var k :| 0 <= k < |sorted| && sorted[k] == s;
      assert forall i :: 0 <= i < |out| ==> out[i] == sorted[i];
      assert k >= |out|;
    }
  }

  lemma {:induction false} AllMain(feed: Feed, n: nat)
    requires n <= |feed.sessions| && forall i :: 0 <= i < n ==> feed.sessions[i].parentId.None?
    ensures |MainRecords(feed, n)| == n
    ensures forall i :: 0 <= i < n ==> MainRecords(feed, n)[i] == Record(feed, feed.sessions[i])
  {
    if n > 0 {
      AllMain(feed, n - 1);
    }
  }

  lemma SnapshotSessionsOk(instance: string, observed: nat, cs: seq<Candidate>, tie: (string, string) -> bool, t: u64)
    requires observed <= MAX_SAFE_INTEGER && observed <= t
    ensures forall i :: 0 <= i < |Snapshot(instance, observed, cs, tie).sessions| ==>
      var s := Snapshot(instance, observed, cs, tie).sessions[i];
      SessionOk(s, t) && s.parentId.None?
  {
    var all := Assemble(cs, observed);
    var sorted := StableSort(all, ActivityFirst(tie));
    var feed := Snapshot(instance, observed, cs, tie);
    forall i | 0 <= i < |feed.sessions|
      ensures SessionOk(feed.sessions[i], t) && feed.sessions[i].parentId.None?
    {
      assert feed.sessions[i] == sorted[i];
      SortMembers(all, ActivityFirst(tie), sorted[i]);
    }
  }

  /**
   Every snapshot of the producer, whatever the SDK answered, is accepted whole by
   the reader from its heartbeat on for exactly sixty seconds.
   */
  lemma ReaderAcceptsForAMinute(instance: string, observed: nat, cs: seq<Candidate>,
                                tie: (string, string) -> bool, t: u64)
    requires SafeId(instance) && observed <= MAX_SAFE_INTEGER && observed <= t
    ensures var feed := Snapshot(instance, observed, cs, tie);
      var r := Normalize(feed, OpencodeOpenai, t);
      && |feed.sessions| <= MAX_PUBLISHED
      && (t < observed + 60_000 ==>
            && r.Records? && |r.records| == |feed.sessions|
            && forall i :: 0 <= i < |feed.sessions| ==> r.records[i] == Record(feed, feed.sessions[i]))
      && (t >= observed + 60_000 ==> r == StaleHeartbeat)
  {
    var feed := Snapshot(instance, observed, cs, tie);
    SnapshotSessionsOk(instance, observed, cs, tie, t);
    AllMain(feed, |feed.sessions|);
  }
}
