/** The daemon's scan of one provider's snapshot directory. */
module Feeds {
  import opened Basics
  import opened Assistant

  // ------------------------------------------------------------- stable sorting

  function Insert<T>(x: T, s: seq<T>, leq: (T, T) -> bool): seq<T> {
    if s == [] || leq(x, s[0]) then [x] + s else [s[0]] + Insert(x, s[1..], leq)
  }

  /** A stable sort: an element stays in front of later ones it is not above. */
  function StableSort<T>(s: seq<T>, leq: (T, T) -> bool): seq<T> {
    if s == [] then [] else Insert(s[0], StableSort(s[1..], leq), leq)
  }

  lemma {:induction false} InsertMultiset<T>(x: T, s: seq<T>, leq: (T, T) -> bool)
    ensures multiset(Insert(x, s, leq)) == multiset(s) + multiset{x}
  {
    if !(s == [] || leq(x, s[0])) {
      InsertMultiset(x, s[1..], leq);
      assert s == [s[0]] + s[1..];
    }
  }

  lemma {:induction false} SortMultiset<T>(s: seq<T>, leq: (T, T) -> bool)
    ensures multiset(StableSort(s, leq)) == multiset(s)
  {
    if s != [] {
      SortMultiset(s[1..], leq);
      InsertMultiset(s[0], StableSort(s[1..], leq), leq);
      assert s == [s[0]] + s[1..];
    }
  }

  lemma SortMembers<T>(s: seq<T>, leq: (T, T) -> bool, x: T)
    ensures x in StableSort(s, leq) <==> x in s
  {
    SortMultiset(s, leq);
    assert x in multiset(s) <==> x in s;
    assert x in multiset(StableSort(s, leq)) <==> x in StableSort(s, leq);
  }

  function Fresher(): (Session, Session) -> bool {
    (a: Session, b: Session) => a.heartbeat >= b.heartbeat
  }

  function MoreActive(): (Session, Session) -> bool {
    (a: Session, b: Session) => a.lastActivity >= b.lastActivity
  }

  ghost predicate ByHeartbeat(s: seq<Session>) {
    forall i, j :: 0 <= i < j < |s| ==> s[i].heartbeat >= s[j].heartbeat
  }

  ghost predicate ByActivity(s: seq<Session>) {
    forall i, j :: 0 <= i < j < |s| ==> s[i].lastActivity >= s[j].lastActivity
  }

  lemma {:induction false} InsertFresher(x: Session, s: seq<Session>)
    requires ByHeartbeat(s)
    ensures ByHeartbeat(Insert(x, s, Fresher()))
  {
    if s != [] && !Fresher()(x, s[0]) {
      InsertFresher(x, s[1..]);
      InsertMultiset(x, s[1..], Fresher());
      var t := Insert(x, s[1..], Fresher());
      forall i | 0 <= i < |t| ensures s[0].heartbeat >= t[i].heartbeat {
        assert t[i] in multiset(t);
        if t[i] != x {
          assert t[i] in s[1..];
        }
      }
    }
  }

  lemma {:induction false} InsertMoreActive(x: Session, s: seq<Session>)
    requires ByActivity(s)
    ensures ByActivity(Insert(x, s, MoreActive()))
  {
    if s != [] && !MoreActive()(x, s[0]) {
      InsertMoreActive(x, s[1..]);
      InsertMultiset(x, s[1..], MoreActive());
      var t := Insert(x, s[1..], MoreActive());
      forall i | 0 <= i < |t| ensures s[0].lastActivity >= t[i].lastActivity {
        assert t[i] in multiset(t);
        if t[i] != x {
          assert t[i] in s[1..];
        }
      }
    }
  }

  lemma {:induction false} SortedByHeartbeat(s: seq<Session>)
    ensures ByHeartbeat(StableSort(s, Fresher()))
  {
    if s != [] {
      SortedByHeartbeat(s[1..]);
      InsertFresher(s[0], StableSort(s[1..], Fresher()));
    }
  }

  lemma {:induction false} SortedByActivity(s: seq<Session>)
    ensures ByActivity(StableSort(s, MoreActive()))
  {
    if s != [] {
      SortedByActivity(s[1..]);
      InsertMoreActive(s[0], StableSort(s[1..], MoreActive()));
    }
  }

  // ------------------------------------------------------------- deduplication

  predicate HasId(s: seq<Session>, id: string) {
    exists i :: 0 <= i < |s| && s[i].sessionId == id
  }

  /** Keep the first record of each session id. */
  function Dedupe(s: seq<Session>): seq<Session> {
    if s == [] then []
    else
      var n := |s| - 1;
      if HasId(s[..n], s[n].sessionId) then Dedupe(s[..n]) else Dedupe(s[..n]) + [s[n]]
  }

  /** The first record of an id in list order. */
  function First(s: seq<Session>, id: string): Option<Session> {
    if s == [] then None
    else if s[0].sessionId == id then Some(s[0]) else First(s[1..], id)
  }

  /** The record of an id with the latest heartbeat, the earliest file's among equals. */
  function Freshest(s: seq<Session>, id: string): Option<Session> {
    if s == [] then None
    else
      var rest := Freshest(s[1..], id);
      if s[0].sessionId == id && (rest.None? || s[0].heartbeat >= rest.value.heartbeat) then Some(s[0]) else rest
  }

  /** What `Freshest` promises, in terms of the records alone. */
  lemma {:induction false} FreshestIsFreshest(s: seq<Session>, id: string)
    ensures var r := Freshest(s, id);
      && (r.None? <==> !HasId(s, id))
      && (r.Some? ==>
            && r.value in s && r.value.sessionId == id
            && forall t :: t in s && t.sessionId == id ==> t.heartbeat <= r.value.heartbeat)
  {
    if s != [] {
      FreshestIsFreshest(s[1..], id);
      assert s == [s[0]] + s[1..];
      if HasId(s[1..], id) {
        var i :| 0 <= i < |s[1..]| && s[1..][i].sessionId == id;
        assert s[i + 1].sessionId == id;
      }
    }
  }

  lemma {:induction false} FirstMember(s: seq<Session>, id: string)
    ensures First(s, id).Some? ==> First(s, id).value in s && First(s, id).value.sessionId == id
    ensures First(s, id).None? <==> !HasId(s, id)
  {
    if s != [] && s[0].sessionId != id {
      FirstMember(s[1..], id);
      if HasId(s[1..], id) {
        var i :| 0 <= i < |s[1..]| && s[1..][i].sessionId == id;
        assert s[i + 1].sessionId == id;
      }
    }
  }

  lemma {:induction false} FirstAfterInsert(x: Session, s: seq<Session>, id: string)
    requires ByHeartbeat(s)
    ensures First(Insert(x, s, Fresher()), id)
         == if x.sessionId == id && (First(s, id).None? || x.heartbeat >= First(s, id).value.heartbeat)
            then Some(x) else First(s, id)
  {
    if s == [] {
      assert [x] + s == [x];
    } else if x.heartbeat >= s[0].heartbeat {
      FirstMember(s, id);
      if First(s, id).Some? {
        var i :| 0 <= i < |s| && s[i] == First(s, id).value;
        assert s[0].heartbeat >= s[i].heartbeat;
      }
      assert ([x] + s)[1..] == s;
    } else {
      FirstAfterInsert(x, s[1..], id);
      var t := Insert(x, s[1..], Fresher());
      assert ([s[0]] + t)[1..] == t;
    }
  }

  /** Sorting by heartbeat puts the freshest record of each id first. */
  lemma {:induction false} FirstOfSorted(s: seq<Session>, id: string)
    ensures First(StableSort(s, Fresher()), id) == Freshest(s, id)
  {
    if s != [] {
      FirstOfSorted(s[1..], id);
      SortedByHeartbeat(s[1..]);
      FirstAfterInsert(s[0], StableSort(s[1..], Fresher()), id);
    }
  }

  lemma {:induction false} FirstOfPrefix(s: seq<Session>, n: nat, id: string)
    requires n <= |s|
    ensures First(s[..n], id).Some? ==> First(s, id) == First(s[..n], id)
    ensures n < |s| && First(s[..n], id).None? && s[n].sessionId == id ==> First(s, id) == Some(s[n])
  {
    if n > 0 && s[0].sessionId != id {
      assert s[..n][1..] == s[1..][..n - 1];
      FirstOfPrefix(s[1..], n - 1, id);
    }
  }

  /** Deduplication keeps exactly the first record of every id. */
  lemma {:induction false} DedupeKeepsFirst(s: seq<Session>, r: Session)
    ensures r in Dedupe(s) <==> First(s, r.sessionId) == Some(r)
  {
    if s == [] {
    } else {
      var n := |s| - 1;
      DedupeKeepsFirst(s[..n], r);
      FirstMember(s[..n], r.sessionId);
      FirstMember(s, r.sessionId);
      FirstOfPrefix(s, n, r.sessionId);
      if First(s[..n], r.sessionId).None? && First(s, r.sessionId).Some? {
        var i :| 0 <= i < |s| && s[i] == First(s, r.sessionId).value;
        forall j | 0 <= j < n ensures s[j].sessionId != r.sessionId {
          assert s[..n][j] == s[j];
        }
        assert i == n;
      }
    }
  }

  ghost predicate DistinctIds(s: seq<Session>) {
    forall i, j :: 0 <= i < j < |s| ==> s[i].sessionId != s[j].sessionId
  }

  lemma {:induction false} DedupeIsDistinct(s: seq<Session>)
    ensures DistinctIds(Dedupe(s))
  {
    if s != [] {
      var n := |s| - 1;
      DedupeIsDistinct(s[..n]);
      var d := Dedupe(s[..n]);
      forall i | 0 <= i < |d| && !HasId(s[..n], s[n].sessionId)
        ensures d[i].sessionId != s[n].sessionId
      {
        DedupeKeepsFirst(s[..n], d[i]);
        FirstMember(s[..n], d[i].sessionId);
      }
    }
  }

  // ----------------------------------------------------------------- one provider

  /** A snapshot file: its stem, and the feed in it if it could be read and parsed. */
  datatype File = File(stem: string, feed: Option<Feed>) {
    function Name(): string {
      stem + ".json"
    }
  }

  datatype Directory = Missing | Unreadable | Listed(files: seq<File>)

  datatype Found = Found(sessions: seq<Session>, errors: nat, live: nat, stale: bool)

  const MAX_FILES := 16
  const MAX_SESSIONS := 32

  function ByName(): (File, File) -> bool {
    (a: File, b: File) => StringLeq(a.Name(), b.Name())
  }

  function Listing(files: seq<File>): seq<File> {
    StableSort(if |files| > MAX_FILES + 1 then files[..MAX_FILES + 1] else files, ByName())
  }

  function AddFile(found: Found, file: File, provider: Provider, now: u64): Found {
    if file.feed.None? || file.feed.value.instanceId != file.stem then found.(errors := found.errors + 1)
    else
      match Normalize(file.feed.value, provider, now)
      case Records(records) => found.(live := found.live + 1, sessions := found.sessions + records)
      case StaleHeartbeat => found.(stale := true)
      case _ => found.(errors := found.errors + 1)
  }

  function AddFiles(found: Found, files: seq<File>, n: nat, provider: Provider, now: u64): Found
    requires n <= |files|
  {
    if n == 0 then found else AddFile(AddFiles(found, files, n - 1, provider, now), files[n - 1], provider, now)
  }

  function Collect(directory: Directory, provider: Provider, now: u64): Found {
    match directory
    case Missing => Found([], 0, 0, false)
    case Unreadable => Found([], 1, 0, false)
    case Listed(files) =>
      var paths := Listing(files);
      AddFiles(Found([], if |paths| > MAX_FILES then 1 else 0, 0, false), paths, Min(MAX_FILES, |paths|), provider, now)
  }

  function Status(found: Found): string {
    if found.errors > 0 then "error_or_limited"
    else if found.live > 0 then "live"
    else if found.stale then "stale" else "missing"
  }

  function Ranked(raw: seq<Session>): seq<Session> {
    StableSort(Dedupe(StableSort(raw, Fresher())), MoreActive())
  }

  function Published(raw: seq<Session>): seq<Session> {
    if |Ranked(raw)| > MAX_SESSIONS then Ranked(raw)[..MAX_SESSIONS] else Ranked(raw)
  }

  /** First half of a scan: read every file, count what is live and what is wrong. */
  method ReadFiles(files: seq<File>, provider: Provider, now: u64) returns (found: Found)
    ensures found == Collect(Listed(files), provider, now)
  {
    var sessions: seq<Session> := [];
    var errors, live, stale := 0, 0, false;
    var paths := StableSort(if |files| > MAX_FILES + 1 then files[..MAX_FILES + 1] else files, ByName());
    if |paths| > MAX_FILES {
      errors := errors + 1;
    }
    ghost var start := Found([], errors, 0, false);
    for i := 0 to Min(MAX_FILES, |paths|)
      invariant Found(sessions, errors, live, stale) == AddFiles(start, paths, i, provider, now)
    {
      var path := paths[i];
      if path.feed.None? || path.stem != path.feed.value.instanceId {
        errors := errors + 1;
      } else {
        var r := NormalizeFeed(path.feed.value, provider, now);
        match r {
          case Records(records) =>
            live := live + 1;
            sessions := sessions + records;
          case StaleHeartbeat => stale := true;
          case _ => errors := errors + 1;
        }
      }
    }
    found := Found(sessions, errors, live, stale);
  }

  /** Second half: sort, retain unseen ids, sort again and cut off. */
  method Rank(raw: seq<Session>) returns (sessions: seq<Session>)
    ensures sessions == Published(raw)
  {
    sessions := StableSort(raw, Fresher());
    var kept: seq<Session> := [];
    var seen: set<string> := {};
    for i := 0 to |sessions|
      invariant kept == Dedupe(sessions[..i])
      invariant forall id :: id in seen <==> HasId(sessions[..i], id)
    {
      assert sessions[..i + 1][..i] == sessions[..i];
      if sessions[i].sessionId !in seen {
        kept := kept + [sessions[i]];
      }
      seen := seen + {sessions[i].sessionId};
      forall id ensures HasId(sessions[..i + 1], id) <==> (HasId(sessions[..i], id) || id == sessions[i].sessionId) {
        HasIdGrows(sessions, i, id);
      }
    }
    assert sessions[..|sessions|] == sessions;
    sessions := StableSort(kept, MoreActive());
    if |sessions| > MAX_SESSIONS {
      sessions := sessions[..MAX_SESSIONS];
    }
  }

  /** The scan of one provider's directory. */
  method ScanProvider(directory: Directory, provider: Provider, now: u64)
    returns (sessions: seq<Session>, status: string)
    ensures sessions == Published(Collect(directory, provider, now).sessions)
    ensures status == Status(Collect(directory, provider, now))
  {
    var found := Found([], 0, 0, false);
    match directory {
      case Missing =>
      case Unreadable => found := found.(errors := 1);
      case Listed(files) => found := ReadFiles(files, provider, now);
    }
    status := if found.stale then "stale" else "missing";
    if found.live > 0 {
      status := "live";
    }
    if found.errors > 0 {
      status := "error_or_limited";
    }
    sessions := Rank(found.sessions);
  }

  lemma HasIdGrows(s: seq<Session>, i: nat, id: string)
    requires i < |s|
    ensures HasId(s[..i + 1], id) <==> (HasId(s[..i], id) || id == s[i].sessionId)
  {
    if HasId(s[..i], id) {
      var j :| 0 <= j < |s[..i]| && s[..i][j].sessionId == id;
      assert s[..i + 1][j].sessionId == id;
    }
    if id == s[i].sessionId {
      assert s[..i + 1][i].sessionId == id;
    }
  }

  // ------------------------------------------------------- what a scan promises

  /** Ranking holds exactly the freshest record of every id. */
  lemma RankedHoldsFreshest(raw: seq<Session>, r: Session)
    ensures r in Ranked(raw) <==> Freshest(raw, r.sessionId) == Some(r)
  {
    var sorted := StableSort(raw, Fresher());
    SortMembers(Dedupe(sorted), MoreActive(), r);
    DedupeKeepsFirst(sorted, r);
    FirstOfSorted(raw, r.sessionId);
  }

  lemma TailLacks(s: seq<Session>, id: string)
    requires s != [] && !HasId(s, id)
    ensures !HasId(s[1..], id)
  {
    forall i | 0 <= i < |s[1..]| ensures s[1..][i].sessionId != id {
      assert s[1..][i] == s[i + 1];
    }
  }

  lemma {:induction false} InsertDistinct(x: Session, s: seq<Session>)
    requires DistinctIds(s) && !HasId(s, x.sessionId)
    ensures DistinctIds(Insert(x, s, MoreActive()))
    ensures forall id :: HasId(Insert(x, s, MoreActive()), id) <==> (HasId(s, id) || id == x.sessionId)
  {
    forall id ensures HasId(Insert(x, s, MoreActive()), id) <==> (HasId(s, id) || id == x.sessionId) {
      IdsByMembers(Insert(x, s, MoreActive()), id);
      IdsByMembers(s, id);
      InsertMultiset(x, s, MoreActive());
      var t := Insert(x, s, MoreActive());
      assert forall r :: r in t <==> r in multiset(t);
      assert forall r :: r in s <==> r in multiset(s);
    }
    if s != [] && !MoreActive()(x, s[0]) {
      TailLacks(s, x.sessionId);
      InsertDistinct(x, s[1..]);
      var t := Insert(x, s[1..], MoreActive());
      forall j | 0 <= j < |t| ensures s[0].sessionId != t[j].sessionId {
        assert HasId(t, t[j].sessionId);
        if t[j].sessionId != x.sessionId {
          var i :| 0 <= i < |s[1..]| && s[1..][i].sessionId == t[j].sessionId;
          assert s[i + 1] == s[1..][i];
        }
      }
    }
  }

  lemma IdsByMembers(s: seq<Session>, id: string)
    ensures HasId(s, id) <==> exists r :: r in s && r.sessionId == id
  {
    if r :| r in s && r.sessionId == id {
      var i :| 0 <= i < |s| && s[i] == r;
    }
  }

  lemma {:induction false} SortDistinct(s: seq<Session>)
    requires DistinctIds(s)
    ensures DistinctIds(StableSort(s, MoreActive()))
  {
    if s != [] {
      SortDistinct(s[1..]);
      var t := StableSort(s[1..], MoreActive());
      forall i | 0 <= i < |t| ensures t[i].sessionId != s[0].sessionId {
        SortMembers(s[1..], MoreActive(), t[i]);
        var j :| 0 <= j < |s[1..]| && s[1..][j] == t[i];
        assert s[j + 1] == t[i];
      }
      InsertDistinct(s[0], t);
    }
  }

  /**
   What is published for a provider: at most 32 records with distinct ids, most
   active first, each the freshest live main record of its id; and a freshest record
   left out is no more active than every one that is in.
   */
  lemma PublishedContract(raw: seq<Session>)
    ensures var out := Published(raw);
      && |out| <= MAX_SESSIONS && DistinctIds(out) && ByActivity(out)
      && (forall r :: r in out ==> Freshest(raw, r.sessionId) == Some(r))
      && (forall r: Session :: Freshest(raw, r.sessionId) == Some(r) && r !in out ==>
            |out| == MAX_SESSIONS && forall t :: t in out ==> r.lastActivity <= t.lastActivity)
  {
    RankedIsSorted(raw);
    forall r | r in Published(raw) ensures Freshest(raw, r.sessionId) == Some(r) {
      RankedHoldsFreshest(raw, r);
    }
    forall r: Session | Freshest(raw, r.sessionId) == Some(r) && r !in Published(raw)
      ensures |Published(raw)| == MAX_SESSIONS && forall t :: t in Published(raw) ==> r.lastActivity <= t.lastActivity
    {
      RankedHoldsFreshest(raw, r);
      LeftOutIsBehind(raw, r);
    }
  }

  lemma RankedIsSorted(raw: seq<Session>)
    ensures DistinctIds(Ranked(raw)) && ByActivity(Ranked(raw))
  {
    DedupeIsDistinct(StableSort(raw, Fresher()));
    SortDistinct(Dedupe(StableSort(raw, Fresher())));
    SortedByActivity(Dedupe(StableSort(raw, Fresher())));
  }

  lemma LeftOutIsBehind(raw: seq<Session>, r: Session)
    requires ByActivity(Ranked(raw)) && r in Ranked(raw) && r !in Published(raw)
    ensures |Published(raw)| == MAX_SESSIONS && forall t :: t in Published(raw) ==> r.lastActivity <= t.lastActivity
  {
    var ranked, out := Ranked(raw), Published(raw);
    var k :| 0 <= k < |ranked| && ranked[k] == r;
    assert forall i :: 0 <= i < |out| ==> out[i] == ranked[i];
    assert k >= |out|;
  }

  // ------------------------------------------------------------ scan and select

  /** Does the file offer this record: accepted now, under its own name, a main session? */
  predicate Offers(file: File, provider: Provider, now: u64, r: Session) {
    && file.feed.Some? && file.feed.value.instanceId == file.stem
    && Normalize(file.feed.value, provider, now).Records?
    && r in MainRecords(file.feed.value, |file.feed.value.sessions|)
  }

  lemma {:induction false} CollectedExact(found: Found, files: seq<File>, n: nat,
                                          provider: Provider, now: u64, r: Session)
    requires n <= |files| && found.sessions == []
    ensures r in AddFiles(found, files, n, provider, now).sessions
      <==> exists i :: 0 <= i < n && Offers(files[i], provider, now, r)
  {
    if n > 0 {
      CollectedExact(found, files, n - 1, provider, now, r);
    }
  }

  /** The files a scan looks at. */
  function Considered(directory: Directory): seq<File> {
    if directory.Listed? then
      var paths := Listing(directory.files);
      paths[..Min(MAX_FILES, |paths|)]
    else []
  }

  /** The raw records are what the considered files offer, no more and no less. */
  lemma RawExact(directory: Directory, provider: Provider, now: u64, r: Session)
    ensures r in Collect(directory, provider, now).sessions
      <==> exists i :: 0 <= i < |Considered(directory)| && Offers(Considered(directory)[i], provider, now, r)
  {
    if directory.Listed? {
      var paths := Listing(directory.files);
      var n := Min(MAX_FILES, |paths|);
      CollectedExact(Found([], if |paths| > MAX_FILES then 1 else 0, 0, false), paths, n, provider, now, r);
      assert forall i :: 0 <= i < n ==> Considered(directory)[i] == paths[i];
    }
  }

  ghost predicate InNameOrder(files: seq<File>) {
    forall i, j :: 0 <= i < j < |files| ==> StringLeq(files[i].Name(), files[j].Name())
  }

  lemma {:induction false} InsertInNameOrder(x: File, files: seq<File>)
    requires InNameOrder(files)
    ensures InNameOrder(Insert(x, files, ByName()))
  {
    if files != [] && !ByName()(x, files[0]) {
      var t := Insert(x, files[1..], ByName());
      InsertInNameOrder(x, files[1..]);
      InsertMultiset(x, files[1..], ByName());
      StringLeqTotal(x.Name(), files[0].Name());
      forall i | 0 <= i < |t| ensures StringLeq(files[0].Name(), t[i].Name()) {
        assert t[i] in multiset(t);
        if t[i] != x {
          assert t[i] in files[1..];
        }
      }
    } else if files != [] {
      forall i | 0 <= i < |files| ensures StringLeq(x.Name(), files[i].Name()) {
        if i > 0 {
          StringLeqTransitive(x.Name(), files[0].Name(), files[i].Name());
        }
      }
    }
  }

  lemma {:induction false} SortedByName(files: seq<File>)
    ensures InNameOrder(StableSort(files, ByName()))
  {
    if files != [] {
      SortedByName(files[1..]);
      InsertInNameOrder(files[0], StableSort(files[1..], ByName()));
    }
  }

  lemma SortLength<T>(s: seq<T>, leq: (T, T) -> bool)
    ensures |StableSort(s, leq)| == |s|
  {
    SortMultiset(s, leq);
    assert |multiset(s)| == |s|;
    assert |multiset(StableSort(s, leq))| == |StableSort(s, leq)|;
  }

  /** A directory of at most sixteen files is read whole, in whatever order it is listed. */
  lemma FewFilesAreAllRead(files: seq<File>, provider: Provider, now: u64, r: Session)
    requires |files| <= 16
    ensures r in Collect(Listed(files), provider, now).sessions
      <==> exists f :: f in files && Offers(f, provider, now, r)
  {
    RawExact(Listed(files), provider, now, r);
    var read := Considered(Listed(files));
    SortLength(files, ByName());
    assert read == StableSort(files, ByName());
    forall f ensures f in read <==> f in files {
      SortMembers(files, ByName(), f);
    }
    assert forall i :: 0 <= i < |read| ==> read[i] in read;
  }

  /**
   Of a larger directory, all but one of the first seventeen files listed are read:
   the one left out comes last in the order of names.
   */
  lemma ManyFilesAreLimited(files: seq<File>, provider: Provider, now: u64) returns (out: File)
    requires |files| > 16
    ensures |Considered(Listed(files))| == 16
    ensures multiset(Considered(Listed(files))) + multiset{out} == multiset(files[..17])
    ensures forall f :: f in Considered(Listed(files)) ==> StringLeq(f.stem + ".json", out.stem + ".json")
    ensures Status(Collect(Listed(files), provider, now)) == "error_or_limited"
  {
    var paths := Listing(files);
    var first := if |files| > 17 then files[..17] else files;
    assert first == files[..17];
    SortLength(first, ByName());
    SortMultiset(first, ByName());
    SortedByName(first);
    out := paths[16];
    assert paths == paths[..16] + [out];
    assert Considered(Listed(files)) == paths[..16];
    Counted(Found([], 1, 0, false), paths, 16, provider, now);
  }

  /** Is the file one a scan complains about? */
  predicate Bad(file: File, provider: Provider, now: u64) {
    || file.feed.None? || file.feed.value.instanceId != file.stem
    || Normalize(file.feed.value, provider, now).InvalidFeed?
    || Normalize(file.feed.value, provider, now).InvalidSession?
  }

  predicate IsLive(file: File, provider: Provider, now: u64) {
    && file.feed.Some? && file.feed.value.instanceId == file.stem
    && Normalize(file.feed.value, provider, now).Records?
  }

  predicate IsStale(file: File, provider: Provider, now: u64) {
    && file.feed.Some? && file.feed.value.instanceId == file.stem
    && Normalize(file.feed.value, provider, now).StaleHeartbeat?
  }

  lemma {:induction false} Counted(found: Found, files: seq<File>, n: nat, provider: Provider, now: u64)
    requires n <= |files|
    ensures var all := AddFiles(found, files, n, provider, now);
      && all.errors >= found.errors && all.live >= found.live
      && (all.errors > found.errors <==> exists i :: 0 <= i < n && Bad(files[i], provider, now))
      && (all.live > found.live <==> exists i :: 0 <= i < n && IsLive(files[i], provider, now))
      && (all.stale <==> found.stale || exists i :: 0 <= i < n && IsStale(files[i], provider, now))
  {
    if n > 0 {
      Counted(found, files, n - 1, provider, now);
    }
  }

  /** Did anything go wrong: the directory, the number of its files, or one that was read? */
  predicate Trouble(directory: Directory, provider: Provider, now: u64) {
    || directory.Unreadable?
    || (directory.Listed? && |directory.files| > 16)
    || exists i :: 0 <= i < |Considered(directory)| && Bad(Considered(directory)[i], provider, now)
  }

  /** The status: trouble first, then a live file, then a stale one. */
  lemma StatusExact(directory: Directory, provider: Provider, now: u64)
    ensures var read := Considered(directory);
      Status(Collect(directory, provider, now))
      == if Trouble(directory, provider, now) then "error_or_limited"
         else if exists i :: 0 <= i < |read| && IsLive(read[i], provider, now) then "live"
         else if exists i :: 0 <= i < |read| && IsStale(read[i], provider, now) then "stale"
         else "missing"
  {
    if directory.Listed? {
      var paths := Listing(directory.files);
      SortLength(if |directory.files| > 17 then directory.files[..17] else directory.files, ByName());
      var n := Min(MAX_FILES, |paths|);
      var start := Found([], if |paths| > MAX_FILES then 1 else 0, 0, false);
      Counted(start, paths, n, provider, now);
      assert |Considered(directory)| == n && forall i :: 0 <= i < n ==> Considered(directory)[i] == paths[i];
    }
  }

  /** What the client insists on in every record. */
  predicate RecordOk(r: Session, provider: Provider, now: u64) {
    && r.provider == provider && SafeId(r.sessionId) && SafeId(r.instanceId)
    && (r.contextPercent.Some? ==> r.contextPercent.value <= 1000)
    && r.lastActivity <= SaturatingAdd(now, LEEWAY) && r.heartbeat <= SaturatingAdd(now, LEEWAY)
  }

  lemma OfferedIsOk(file: File, provider: Provider, now: u64, r: Session)
    requires Offers(file, provider, now, r)
    ensures RecordOk(r, provider, now)
  {
    var feed := file.feed.value;
    MainRecordsExact(feed, |feed.sessions|, r);
    assert HeaderOk(feed, provider, now);
    var i :| 0 <= i < |feed.sessions| && feed.sessions[i].parentId.None? && Mirrors(r, feed, feed.sessions[i]);
    assert SessionOk(feed.sessions[i], now);
  }

  lemma RawIsOk(directory: Directory, provider: Provider, now: u64, r: Session)
    requires r in Collect(directory, provider, now).sessions
    ensures RecordOk(r, provider, now)
  {
    RawExact(directory, provider, now, r);
    var i :| 0 <= i < |Considered(directory)| && Offers(Considered(directory)[i], provider, now, r);
    OfferedIsOk(Considered(directory)[i], provider, now, r);
  }

  /** Both providers' published sessions, in the order the daemon appends them. */
  function Scanned(claude: Directory, opencode: Directory, now: u64): seq<Session> {
    Published(Collect(claude, Claude, now).sessions) + Published(Collect(opencode, OpencodeOpenai, now).sessions)
  }

  function DirectoryOf(claude: Directory, opencode: Directory, provider: Provider): Directory {
    if provider.Claude? then claude else opencode
  }

  lemma PublishedIsOk(directory: Directory, provider: Provider, now: u64, r: Session)
    requires r in Published(Collect(directory, provider, now).sessions)
    ensures RecordOk(r, provider, now)
  {
    var raw := Collect(directory, provider, now).sessions;
    PublishedContract(raw);
    FreshestIsFreshest(raw, r.sessionId);
    RawIsOk(directory, provider, now, r);
  }

  lemma EligibleIsPublished(claude: Directory, opencode: Directory, now: u64, provider: Provider, r: Session)
    ensures var raw := Collect(DirectoryOf(claude, opencode, provider), provider, now).sessions;
      r in Scanned(claude, opencode, now) && r.provider == provider <==> r in Published(raw)
  {
    if r in Published(Collect(claude, Claude, now).sessions) {
      PublishedIsOk(claude, Claude, now, r);
    }
    if r in Published(Collect(opencode, OpencodeOpenai, now).sessions) {
      PublishedIsOk(opencode, OpencodeOpenai, now, r);
    }
  }

  /**
   Following the latest activity: an unpinned widget selects a session of its
   provider that is at least as active as every freshest record the provider has,
   published or not, and selects nothing only when there is none.
   */
  lemma UnpinnedFollowsActivity(claude: Directory, opencode: Directory, now: u64, provider: Provider)
    ensures var raw := Collect(DirectoryOf(claude, opencode, provider), provider, now).sessions;
      var r := Selected(Scanned(claude, opencode, now), provider, None);
      && (r.None? <==> raw == [])
      && (r.Some? ==>
            && Freshest(raw, r.value.sessionId) == r
            && forall t: Session :: Freshest(raw, t.sessionId) == Some(t) ==> t.lastActivity <= r.value.lastActivity)
  {
    var raw := Collect(DirectoryOf(claude, opencode, provider), provider, now).sessions;
    var all := Scanned(claude, opencode, now);
    var r := Selected(all, provider, None);
    SelectedIsGreatest(all, provider, None);
    PublishedContract(raw);
    if r.Some? {
      EligibleIsPublished(claude, opencode, now, provider, r.value);
      FreshestIsFreshest(raw, r.value.sessionId);
      forall t: Session | Freshest(raw, t.sessionId) == Some(t) ensures t.lastActivity <= r.value.lastActivity {
        if t in Published(raw) {
          EligibleIsPublished(claude, opencode, now, provider, t);
          assert Eligible(t, provider, None);
        }
      }
    } else if raw != [] {
      var id := raw[0].sessionId;
      FreshestIsFreshest(raw, id);
      assert HasId(raw, id);
      var t := Freshest(raw, id).value;
      assert Freshest(raw, t.sessionId) == Some(t);
      var p := if t in Published(raw) then t else Published(raw)[0];
      EligibleIsPublished(claude, opencode, now, provider, p);
      assert Eligible(p, provider, None);
    }
  }

  /**
   A pin never falls back: it yields the freshest record of exactly that id, or
   nothing, and nothing only when the id has no live main record or its freshest
   one is not among the 32 most active.
   */
  lemma PinNeverFallsBack(claude: Directory, opencode: Directory, now: u64, provider: Provider, id: string)
    ensures var raw := Collect(DirectoryOf(claude, opencode, provider), provider, now).sessions;
      var r := Selected(Scanned(claude, opencode, now), provider, Some(id));
      && (r.Some? ==> r == Freshest(raw, id))
      && (r.None? <==> Freshest(raw, id).None? || Freshest(raw, id).value !in Published(raw))
  {
    var raw := Collect(DirectoryOf(claude, opencode, provider), provider, now).sessions;
    var all := Scanned(claude, opencode, now);
    var r := Selected(all, provider, Some(id));
    SelectedIsGreatest(all, provider, Some(id));
    PublishedContract(raw);
    FreshestIsFreshest(raw, id);
    if r.Some? {
      EligibleIsPublished(claude, opencode, now, provider, r.value);
    }
    if Freshest(raw, id).Some? {
      var f := Freshest(raw, id).value;
      EligibleIsPublished(claude, opencode, now, provider, f);
      if f in Published(raw) {
        assert Eligible(f, provider, Some(id));
      }
    }
  }
}
