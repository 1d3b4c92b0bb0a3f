/** Assistant metadata: what a feed file may say, and which session a widget follows. */
module Assistant {
  import opened Basics

  type u64 = n: int | 0 <= n < 0x1_0000_0000_0000_0000
  type u16 = n: int | 0 <= n < 0x1_0000

  const U64_MAX: u64 := 0xffff_ffff_ffff_ffff

  function SaturatingAdd(a: u64, b: u64): u64 {
    Min(a + b, U64_MAX)
  }

  function SaturatingSub(a: u64, b: u64): u64 {
    if a < b then 0 else a - b
  }

  datatype Provider = Claude | OpencodeOpenai

  datatype FeedSession = FeedSession(
    sessionId: string, parentId: Option<string>, contextPercent: Option<u16>, busy: bool, lastActivity: u64)

  datatype Feed = Feed(
    schemaVersion: u16, instanceId: string, provider: Provider, heartbeat: u64, sessions: seq<FeedSession>)

  datatype Session = Session(
    provider: Provider, instanceId: string, sessionId: string,
    contextPercent: Option<u16>, busy: bool, lastActivity: u64, heartbeat: u64)

  predicate SafeChar(c: char) {
    'a' <= c <= 'z' || 'A' <= c <= 'Z' || '0' <= c <= '9' || c == '-' || c == '_'
  }

  predicate SafeId(id: string) {
    0 < |id| <= 128 && forall i :: 0 <= i < |id| ==> SafeChar(id[i])
  }

  // --------------------------------------------------------------- normalizing

  const LEEWAY: u64 := 5000
  const EXPIRY: u64 := 60_000

  datatype Normalized = Records(records: seq<Session>) | InvalidFeed | StaleHeartbeat | InvalidSession

  predicate HeaderOk(feed: Feed, provider: Provider, now: u64) {
    && feed.schemaVersion == 1 && feed.provider == provider && SafeId(feed.instanceId)
    && |feed.sessions| <= 16 && feed.heartbeat <= SaturatingAdd(now, LEEWAY)
  }

  predicate SessionOk(s: FeedSession, now: u64) {
    && SafeId(s.sessionId) && (s.parentId.Some? ==> SafeId(s.parentId.value))
    && (s.contextPercent.Some? ==> s.contextPercent.value <= 1000)
    && s.lastActivity <= SaturatingAdd(now, LEEWAY)
  }

  function Record(feed: Feed, s: FeedSession): Session {
    Session(feed.provider, feed.instanceId, s.sessionId, s.contextPercent, s.busy, s.lastActivity, feed.heartbeat)
  }

  /** One record for each main session among the first n. */
  function MainRecords(feed: Feed, n: nat): seq<Session>
    requires n <= |feed.sessions|
  {
    if n == 0 then []
    else if feed.sessions[n - 1].parentId.Some? then MainRecords(feed, n - 1)
    else MainRecords(feed, n - 1) + [Record(feed, feed.sessions[n - 1])]
  }

  function Normalize(feed: Feed, provider: Provider, now: u64): Normalized {
    if !HeaderOk(feed, provider, now) then InvalidFeed
    else if SaturatingSub(now, feed.heartbeat) >= EXPIRY then StaleHeartbeat
    else if exists i :: 0 <= i < |feed.sessions| && !SessionOk(feed.sessions[i], now) then InvalidSession
    else Records(MainRecords(feed, |feed.sessions|))
  }

  method NormalizeFeed(feed: Feed, provider: Provider, now: u64) returns (r: Normalized)
    ensures r == Normalize(feed, provider, now)
  {
    if !HeaderOk(feed, provider, now) {
      return InvalidFeed;
    }
    if SaturatingSub(now, feed.heartbeat) >= EXPIRY {
      return StaleHeartbeat;
    }
    var sessions: seq<Session> := [];
    for i := 0 to |feed.sessions|
      invariant forall j :: 0 <= j < i ==> SessionOk(feed.sessions[j], now)
      invariant sessions == MainRecords(feed, i)
    {
      var session := feed.sessions[i];
      if !SessionOk(session, now) {
        return InvalidSession;
      }
      if session.parentId.None? {
        sessions := sessions + [Record(feed, session)];
      }
    }
    r := Records(sessions);
  }

  /** The record says of a session what its feed says, field by field. */
  predicate Mirrors(r: Session, feed: Feed, s: FeedSession) {
    && r.sessionId == s.sessionId && r.contextPercent == s.contextPercent && r.busy == s.busy
    && r.lastActivity == s.lastActivity
    && r.provider == feed.provider && r.instanceId == feed.instanceId && r.heartbeat == feed.heartbeat
  }

  /** The records mirror the main sessions of the feed, no more and no less. */
  lemma {:induction false} MainRecordsExact(feed: Feed, n: nat, r: Session)
    requires n <= |feed.sessions|
    ensures r in MainRecords(feed, n) <==>
      exists i :: 0 <= i < n && feed.sessions[i].parentId.None? && Mirrors(r, feed, feed.sessions[i])
  {
    if n > 0 {
      MainRecordsExact(feed, n - 1, r);
    }
  }

  /** The header a feed needs, its clock included: at most five seconds ahead. */
  predicate Headed(feed: Feed, provider: Provider, now: u64) {
    && feed.schemaVersion == 1 && feed.provider == provider && 1 <= |feed.instanceId| <= 128
    && (forall i :: 0 <= i < |feed.instanceId| ==> SafeChar(feed.instanceId[i]))
    && |feed.sessions| <= 16 && feed.heartbeat <= now + 5000
  }

  /**
   Header, age, sessions, in that order: a feed is invalid without its header, stale
   from a minute after its heartbeat on, and invalid again with a bad session.
   */
  lemma NormalizeExact(feed: Feed, provider: Provider, now: u64)
    ensures var r, expired := Normalize(feed, provider, now), feed.heartbeat + 60_000 <= now;
      var bad := exists i :: (&& 0 <= i < |feed.sessions|
        && var s := feed.sessions[i];
           || !SafeId(s.sessionId) || (s.parentId.Some? && !SafeId(s.parentId.value))
           || (s.contextPercent.Some? && s.contextPercent.value > 1000) || s.lastActivity > now + 5000);
      && (r.InvalidFeed? <==> !Headed(feed, provider, now))
      && (r.StaleHeartbeat? <==> Headed(feed, provider, now) && expired)
      && (r.InvalidSession? <==> Headed(feed, provider, now) && !expired && bad)
      && (r.Records? <==> Headed(feed, provider, now) && !expired && !bad)
  {
    assert HeaderOk(feed, provider, now) <==> Headed(feed, provider, now);
    forall i | 0 <= i < |feed.sessions|
      ensures !SessionOk(feed.sessions[i], now) <==>
        var s := feed.sessions[i];
        || !SafeId(s.sessionId) || (s.parentId.Some? && !SafeId(s.parentId.value))
        || (s.contextPercent.Some? && s.contextPercent.value > 1000) || s.lastActivity > now + 5000
    {
    }
  }

  // ----------------------------------------------------------------- selection

  predicate StringLeq(a: string, b: string) {
    a == [] || (b != [] && (a[0] < b[0] || (a[0] == b[0] && StringLeq(a[1..], b[1..]))))
  }

  lemma {:induction false} StringLeqTotal(a: string, b: string)
    ensures StringLeq(a, b) || StringLeq(b, a)
    ensures StringLeq(a, b) && StringLeq(b, a) ==> a == b
  {
    if a != [] && b != [] && a[0] == b[0] {
      StringLeqTotal(a[1..], b[1..]);
      assert a == [a[0]] + a[1..] && b == [b[0]] + b[1..];
    }
  }

  lemma {:induction false} StringLeqTransitive(a: string, b: string, c: string)
    requires StringLeq(a, b) && StringLeq(b, c)
    ensures StringLeq(a, c)
  {
    if a != [] && a[0] == b[0] && b[0] == c[0] {
      StringLeqTransitive(a[1..], b[1..], c[1..]);
    }
  }

  /** Order of the triple last activity, session id, instance id. */
  predicate KeyLeq(a: Session, b: Session) {
    || a.lastActivity < b.lastActivity
    || (a.lastActivity == b.lastActivity
        && (if a.sessionId == b.sessionId then StringLeq(a.instanceId, b.instanceId)
            else StringLeq(a.sessionId, b.sessionId)))
  }

  lemma KeyLeqTotal(a: Session, b: Session)
    ensures KeyLeq(a, b) || KeyLeq(b, a)
  {
    StringLeqTotal(a.sessionId, b.sessionId);
    StringLeqTotal(a.instanceId, b.instanceId);
  }

  lemma KeyLeqTransitive(a: Session, b: Session, c: Session)
    requires KeyLeq(a, b) && KeyLeq(b, c)
    ensures KeyLeq(a, c)
  {
    if a.lastActivity == b.lastActivity == c.lastActivity {
      if a.sessionId == b.sessionId == c.sessionId {
        StringLeqTransitive(a.instanceId, b.instanceId, c.instanceId);
      } else if a.sessionId != b.sessionId && b.sessionId != c.sessionId {
        StringLeqTransitive(a.sessionId, b.sessionId, c.sessionId);
        StringLeqTotal(a.sessionId, b.sessionId);
        StringLeqTotal(b.sessionId, c.sessionId);
      }
    }
  }

  predicate Eligible(s: Session, provider: Provider, pin: Option<string>) {
    s.provider == provider && (pin.None? || s.sessionId == pin.value)
  }

  /** The last of the greatest eligible sessions. */
  function Selected(sessions: seq<Session>, provider: Provider, pin: Option<string>): Option<Session> {
    if sessions == [] then None
    else
      var last := sessions[|sessions| - 1];
      var before := Selected(sessions[..|sessions| - 1], provider, pin);
      if Eligible(last, provider, pin) && (before.None? || KeyLeq(before.value, last)) then Some(last) else before
  }

  /** Selection picks an eligible maximum, and nothing only when nothing is eligible. */
  lemma {:induction false} SelectedIsGreatest(sessions: seq<Session>, provider: Provider, pin: Option<string>)
    ensures var r := Selected(sessions, provider, pin);
      && (r.None? <==> forall s :: s in sessions ==> !Eligible(s, provider, pin))
      && (r.Some? ==> r.value in sessions && Eligible(r.value, provider, pin))
      && (r.Some? ==> forall s :: s in sessions && Eligible(s, provider, pin) ==> KeyLeq(s, r.value))
  {
    if sessions != [] {
      var n := |sessions| - 1;
      var last := sessions[n];
      SelectedIsGreatest(sessions[..n], provider, pin);
      var before := Selected(sessions[..n], provider, pin);
      var r := Selected(sessions, provider, pin);
      assert sessions == sessions[..n] + [last];
      if before.Some? { KeyLeqTotal(before.value, last); }
      KeyLeqTotal(last, last);
      forall s | s in sessions && Eligible(s, provider, pin)
        ensures r.Some? && KeyLeq(s, r.value)
      {
        if s in sessions[..n] && before.Some? && KeyLeq(before.value, last) {
          KeyLeqTransitive(s, before.value, last);
        }
      }
    }
  }

  /** The session at `i` is eligible, no earlier eligible one exceeds it, and it exceeds all later ones. */
  ghost predicate IsLastGreatest(sessions: seq<Session>, provider: Provider, pin: Option<string>, i: nat) {
    && i < |sessions| && Eligible(sessions[i], provider, pin)
    && (forall j :: 0 <= j < i && Eligible(sessions[j], provider, pin) ==> KeyLeq(sessions[j], sessions[i]))
    && (forall j :: i < j < |sessions| && Eligible(sessions[j], provider, pin) ==> !KeyLeq(sessions[i], sessions[j]))
  }

  /** At most one place holds the last greatest eligible session, and selection returns what is there. */
  lemma {:induction false} SelectedIsLastGreatest(sessions: seq<Session>, provider: Provider, pin: Option<string>,
                                                  i: nat)
    requires IsLastGreatest(sessions, provider, pin, i)
    ensures Selected(sessions, provider, pin) == Some(sessions[i])
  {
    var n := |sessions| - 1;
    if i < n {
      assert sessions[..n][i] == sessions[i];
      SelectedIsLastGreatest(sessions[..n], provider, pin, i);
    } else {
      SelectedIsGreatest(sessions[..n], provider, pin);
      var before := Selected(sessions[..n], provider, pin);
      if before.Some? {
        var j :| 0 <= j < n && sessions[..n][j] == before.value;
        assert KeyLeq(sessions[j], sessions[n]);
      }
    }
  }

  /** If any session is eligible, there is such a place. */
  lemma {:induction false} LastGreatestExists(sessions: seq<Session>, provider: Provider, pin: Option<string>)
    requires exists s :: s in sessions && Eligible(s, provider, pin)
    ensures exists i :: IsLastGreatest(sessions, provider, pin, i)
  {
    var n := |sessions| - 1;
    SelectedIsGreatest(sessions, provider, pin);
    SelectedIsGreatest(sessions[..n], provider, pin);
    assert sessions == sessions[..n] + [sessions[n]];
    var before := Selected(sessions[..n], provider, pin);
    if Eligible(sessions[n], provider, pin) && (before.None? || KeyLeq(before.value, sessions[n])) {
      assert IsLastGreatest(sessions, provider, pin, n);
    } else {
      assert before.value in sessions[..n];
      LastGreatestExists(sessions[..n], provider, pin);
      var i :| IsLastGreatest(sessions[..n], provider, pin, i);
      SelectedIsLastGreatest(sessions[..n], provider, pin, i);
      LastGreatestLonger(sessions, provider, pin, i);
    }
  }

  lemma LastGreatestLonger(sessions: seq<Session>, provider: Provider, pin: Option<string>, i: nat)
    requires sessions != [] && IsLastGreatest(sessions[..|sessions| - 1], provider, pin, i)
    requires var last := sessions[|sessions| - 1];
      !(Eligible(last, provider, pin) && KeyLeq(sessions[i], last))
    ensures IsLastGreatest(sessions, provider, pin, i)
  {
    var before := sessions[..|sessions| - 1];
    assert forall j :: 0 <= j < |before| ==> before[j] == sessions[j];
  }
}
