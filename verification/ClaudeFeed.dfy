/**
 The Claude helper: short-lived processes that fold hook and status-line events
 into one snapshot file per session, under a kernel lock.
 */
module ClaudeFeed {
  import opened Basics
  import opened Assistant

  type Percent = n: u16 | n <= 1000

  datatype Kind =
    | SessionStart
    | SessionEnd
    | UserPromptSubmit
    | Stop
    | StopFailure
    | StatusLine(context: Option<Percent>)

  // -------------------------------------------------------------------- input

  const MAX_INPUT := 65536

  /** What the helper looks at in a parsed payload. */
  datatype Payload = Payload(
    sessionId: Option<string>, agentId: bool, parentId: bool,
    hookEventName: Option<string>, usedPercentage: Option<real>)

  /** One call of the helper: from a hook or the status line, with this many bytes of input. */
  datatype Input = Input(hook: bool, size: nat, payload: Payload)

  datatype Event = Event(kind: Kind, now: u64, input: Input)

  /** `value.round() as u16` on a value in range. */
  function Rounded(v: real): (n: Percent)
    requires 0.0 <= v <= 1000.0
    ensures v - 0.5 <= n as real <= v + 0.5
  {
    (v + 0.5).Floor
  }

  function Context(p: Payload): Option<Percent> {
    if p.usedPercentage.Some? && 0.0 <= p.usedPercentage.value <= 1000.0
    then Some(Rounded(p.usedPercentage.value)) else None
  }

  function HookKind(name: string): Option<Kind> {
    if name == "SessionStart" then Some(SessionStart)
    else if name == "SessionEnd" then Some(SessionEnd)
    else if name == "UserPromptSubmit" then Some(UserPromptSubmit)
    else if name == "Stop" then Some(Stop)
    else if name == "StopFailure" then Some(StopFailure)
    else None
  }

  /**
   The event an input stands for, if any. A hook that names itself "statusline"
   passes the helper's list of names and is folded as a status line.
   */
  function Classify(input: Input): Option<Kind> {
    var p := input.payload;
    if input.size > MAX_INPUT || p.sessionId.None? || !SafeId(p.sessionId.value) || p.agentId || p.parentId then None
    else if !input.hook || p.hookEventName == Some("statusline") then Some(StatusLine(Context(p)))
    else if p.hookEventName.None? then None
    else HookKind(p.hookEventName.value)
  }

  /** A hook that calls itself by this name. */
  predicate Named(input: Input, name: string) {
    input.hook && input.payload.hookEventName == Some(name)
  }

  predicate FromStatusLine(input: Input) {
    !input.hook || Named(input, "statusline")
  }

  /** An input of the main session `id` itself, within bounds. */
  predicate OfMainSession(input: Input, id: string) {
    && input.size <= 65536 && input.payload.sessionId == Some(id) && SafeId(id)
    && !input.payload.agentId && !input.payload.parentId
  }

  /** Every status line and every hook of the five names is an event, and nothing else is. */
  lemma EventIffKnown(input: Input, id: string)
    requires input.payload.sessionId == Some(id)
    ensures Classify(input).Some? <==>
      && OfMainSession(input, id)
      && (|| FromStatusLine(input) || Named(input, "SessionStart") || Named(input, "SessionEnd")
          || Named(input, "UserPromptSubmit") || Named(input, "Stop") || Named(input, "StopFailure"))
  {
  }

  /** The event is the one the input names, and a status line's percentage is the nearest whole one. */
  predicate Means(kind: Kind, input: Input) {
    match kind
    case SessionStart => Named(input, "SessionStart")
    case SessionEnd => Named(input, "SessionEnd")
    case UserPromptSubmit => Named(input, "UserPromptSubmit")
    case Stop => Named(input, "Stop")
    case StopFailure => Named(input, "StopFailure")
    case StatusLine(context) => FromStatusLine(input) && Nearest(context, input.payload.usedPercentage)
  }

  /** A percentage within 0 and 1000 gives the nearest whole number, any other none. */
  predicate Nearest(context: Option<u16>, used: Option<real>) {
    if used.Some? && 0.0 <= used.value <= 1000.0
    then context.Some? && context.value as real - 0.5 <= used.value <= context.value as real + 0.5
    else context.None?
  }

  lemma KindIsNamed(input: Input)
    requires Classify(input).Some?
    ensures Means(Classify(input).value, input)
  {
  }

  // --------------------------------------------------------------------- update

  predicate Trusted(feed: Feed, id: string) {
    && feed.schemaVersion == 1 && feed.instanceId == id && feed.provider == Claude && |feed.sessions| <= 1
    && (feed.sessions != [] ==> feed.sessions[0].sessionId == id && feed.sessions[0].parentId.None?)
  }

  function Current(previous: Option<Feed>, id: string): FeedSession {
    if previous.Some? && previous.value.sessions != [] then previous.value.sessions[0]
    else FeedSession(id, None, None, false, 0)
  }

  function Folded(session: FeedSession, e: Event): FeedSession {
    match e.kind
    case SessionStart => session.(busy := false, contextPercent := None, lastActivity := e.now)
    case UserPromptSubmit => session.(busy := true, lastActivity := e.now)
    case Stop => session.(busy := false, lastActivity := e.now)
    case StopFailure => session.(busy := false, lastActivity := e.now)
    case StatusLine(context) => session.(contextPercent := context)
    case SessionEnd => session
  }

  /** The snapshot an event replaces the previous one with, or nothing. */
  function Update(previous: Option<Feed>, id: string, e: Event): Option<Feed> {
    if previous.Some? && !Trusted(previous.value, id) then None
    else if e.kind.StatusLine? && previous.Some? && previous.value.sessions == [] then None
    else if e.now < Current(previous, id).lastActivity || (previous.Some? && previous.value.heartbeat > e.now) then None
    else
      Some(Feed(1, id, Claude, e.now, if e.kind.SessionEnd? then [] else [Folded(Current(previous, id), e)]))
  }

  // ---------------------------------------------------------------- closed form

  /** The latest hook event since the session last ended. */
  function LatestHook(log: seq<Event>): Option<Event> {
    if log == [] then None
    else
      var last := log[|log| - 1];
      match last.kind
      case SessionEnd => None
      case StatusLine(_) => LatestHook(log[..|log| - 1])
      case _ => Some(last)
  }

  /** The latest status line's percentage since the session last started or ended. */
  function LatestContext(log: seq<Event>): Option<Percent> {
    if log == [] then None
    else
      var last := log[|log| - 1];
      match last.kind
      case SessionEnd => None
      case SessionStart => None
      case StatusLine(context) => context
      case _ => LatestContext(log[..|log| - 1])
  }

  /** The snapshot read off the list of committed events alone. */
  function Published(log: seq<Event>, id: string): Option<Feed> {
    if log == [] then None
    else
      var last := log[|log| - 1];
      var hook := LatestHook(log);
      Some(Feed(1, id, Claude, last.now,
        if last.kind.SessionEnd? then []
        else [FeedSession(id, None, LatestContext(log),
                          hook.Some? && hook.value.kind.UserPromptSubmit?,
                          if hook.Some? then hook.value.now else 0)]))
  }

  /** Committed times never go back, and no status line follows an end. */
  ghost predicate Ordered(log: seq<Event>) {
    && (forall i :: 0 < i < |log| ==> log[i - 1].now <= log[i].now)
    && (forall i :: 0 < i < |log| && log[i].kind.StatusLine? ==> !log[i - 1].kind.SessionEnd?)
  }

  /** An event is committed exactly when it is not older and does not touch a tombstone. */
  predicate Committable(log: seq<Event>, e: Event) {
    log == [] ||
    (log[|log| - 1].now <= e.now && !(e.kind.StatusLine? && log[|log| - 1].kind.SessionEnd?))
  }

  lemma {:induction false} HookIsOld(log: seq<Event>)
    requires Ordered(log) && log != []
    ensures LatestHook(log).Some? ==> LatestHook(log).value.now <= log[|log| - 1].now
  {
    var n := |log| - 1;
    if log[n].kind.StatusLine? && n > 0 {
      HookIsOld(log[..n]);
    }
  }

  /** An update is skipped exactly when the event is not committable. */
  lemma UpdateIffCommittable(log: seq<Event>, id: string, e: Event)
    requires Ordered(log)
    ensures Update(Published(log, id), id, e).Some? <==> Committable(log, e)
  {
    if log != [] {
      HookIsOld(log);
    }
  }

  lemma LatestAfter(log: seq<Event>, e: Event)
    ensures LatestHook(log + [e]) == match e.kind {
        case SessionEnd => None
        case StatusLine(_) => LatestHook(log)
        case _ => Some(e)
      }
    ensures LatestContext(log + [e]) == match e.kind {
        case SessionEnd => None
        case SessionStart => None
        case StatusLine(context) => context
        case _ => LatestContext(log)
      }
  {
    assert (log + [e])[..|log|] == log;
  }

  lemma OrderedAfter(log: seq<Event>, e: Event)
    requires Ordered(log) && Committable(log, e)
    ensures Ordered(log + [e])
  {
  }

  /** The session an event leaves is the one the closed form describes. */
  lemma FoldedIsLatest(log: seq<Event>, id: string, e: Event)
    requires Ordered(log) && Committable(log, e) && !e.kind.SessionEnd?
    ensures var hook := LatestHook(log + [e]);
      Folded(Current(Published(log, id), id), e)
      == FeedSession(id, None, LatestContext(log + [e]),
                     hook.Some? && hook.value.kind.UserPromptSubmit?,
                     if hook.Some? then hook.value.now else 0)
  {
    LatestAfter(log, e);
    if log != [] && log[|log| - 1].kind.SessionEnd? {
      assert LatestHook(log).None? && LatestContext(log).None?;
    }
  }

  /** One update is one step of the closed form, and is skipped exactly when it must be. */
  lemma UpdateExtends(log: seq<Event>, id: string, e: Event)
    requires Ordered(log)
    ensures Update(Published(log, id), id, e).Some? <==> Committable(log, e)
    ensures Committable(log, e) ==> Update(Published(log, id), id, e) == Published(log + [e], id) && Ordered(log + [e])
  {
    UpdateIffCommittable(log, id, e);
    if Committable(log, e) {
      OrderedAfter(log, e);
      if !e.kind.SessionEnd? {
        FoldedIsLatest(log, id, e);
      }
      assert (log + [e])[|log|] == e;
    }
  }

  /** A file that is not this session's own snapshot is never replaced. */
  lemma ForeignFileStays(previous: Feed, id: string, e: Event)
    requires || previous.schemaVersion != 1 || previous.instanceId != id || previous.provider != Claude
             || |previous.sessions| > 1
             || (previous.sessions != []
                 && (previous.sessions[0].sessionId != id || previous.sessions[0].parentId.Some?))
    ensures Update(Some(previous), id, e) == None
  {
  }

  // ------------------------------------------------------- competing helpers

  datatype Helper =
    | Waiting(event: Event)
    | Holding(event: Event)
    | Loaded(event: Event, seen: Option<Feed>)
    | Leaving

  type HelperId = nat

  datatype World = World(
    file: Option<Feed>, lock: Option<HelperId>, helpers: map<HelperId, Helper>, committed: seq<Event>)

  datatype Step =
    | Begin(helper: HelperId, input: Input, now: u64)
    | Acquire(helper: HelperId)
    | Load(helper: HelperId)
    | Replace(helper: HelperId)
    | Exit(helper: HelperId)  // finished, timed out waiting, or crashed: the kernel drops the lock

  /** The event of the session `id` that a new helper was handed, if any. */
  function Received(step: Step, id: string): Option<Event>
    requires step.Begin?
  {
    var kind := Classify(step.input);
    if kind.Some? && step.input.payload.sessionId == Some(id)
    then Some(Event(kind.value, step.now, step.input)) else None
  }

  /** One step of one helper of the session `id`; a step out of turn does nothing. */
  function Do(w: World, id: string, step: Step): World {
    var h := step.helper;
    match step
    case Begin(_, _, _) =>
      var event := Received(step, id);
      if h in w.helpers || event.None? then w else w.(helpers := w.helpers[h := Waiting(event.value)])
    case Acquire(_) =>
      if h in w.helpers && w.helpers[h].Waiting? && w.lock.None?
      then w.(lock := Some(h), helpers := w.helpers[h := Holding(w.helpers[h].event)]) else w
    case Load(_) =>
      if h in w.helpers && w.helpers[h].Holding?
      then w.(helpers := w.helpers[h := Loaded(w.helpers[h].event, w.file)]) else w
    case Replace(_) =>
      if h in w.helpers && w.helpers[h].Loaded? then
        var next := Update(w.helpers[h].seen, id, w.helpers[h].event);
        var left := w.(helpers := w.helpers[h := Leaving]);
        if next.None? then left else left.(file := next, committed := w.committed + [w.helpers[h].event])
      else w
    case Exit(_) =>
      if h in w.helpers
      then w.(helpers := w.helpers - {h}, lock := if w.lock == Some(h) then None else w.lock) else w
  }

  const EMPTY := World(None, None, map[], [])

  function Run(w: World, id: string, steps: seq<Step>): World
    decreases |steps|
  {
    if steps == [] then w else Run(Do(w, id, steps[0]), id, steps[1..])
  }

  ghost predicate Good(w: World, id: string) {
    && w.file == Published(w.committed, id) && Ordered(w.committed)
    && (forall h :: h in w.helpers && !w.helpers[h].Waiting? ==> w.lock == Some(h))
    && (forall h :: h in w.helpers && w.helpers[h].Loaded? ==> w.helpers[h].seen == w.file)
  }

  lemma StepIsGood(w: World, id: string, step: Step)
    requires Good(w, id)
    ensures Good(Do(w, id, step), id)
    ensures w.committed <= Do(w, id, step).committed
  {
    if step.Replace? && step.helper in w.helpers && w.helpers[step.helper].Loaded? {
      UpdateExtends(w.committed, id, w.helpers[step.helper].event);
    }
  }

  lemma {:induction false} RunIsGood(w: World, id: string, steps: seq<Step>)
    requires Good(w, id)
    ensures Good(Run(w, id, steps), id)
    decreases |steps|
  {
    if steps != [] {
      StepIsGood(w, id, steps[0]);
      RunIsGood(Do(w, id, steps[0]), id, steps[1..]);
    }
  }

  /**
   However many helpers race, wait, give up or crash: the file is exactly the
   closed form of the events committed in lock order, whose times never go back,
   and no status line was committed behind an end.
   */
  lemma FeedIsClosedForm(id: string, steps: seq<Step>)
    ensures var w := Run(EMPTY, id, steps);
      w.file == Published(w.committed, id) && Ordered(w.committed)
  {
    RunIsGood(EMPTY, id, steps);
  }

  ghost predicate Handed(steps: seq<Step>, id: string, e: Event) {
    exists i :: 0 <= i < |steps| && steps[i].Begin? && Received(steps[i], id) == Some(e)
  }

  /** Helpers at work and committed events all go back to inputs in `seen`. */
  ghost predicate ComesFrom(w: World, id: string, seen: seq<Step>) {
    && (forall h :: h in w.helpers && !w.helpers[h].Leaving? ==> Handed(seen, id, w.helpers[h].event))
    && (forall i :: 0 <= i < |w.committed| ==> Handed(seen, id, w.committed[i]))
  }

  lemma HandedLonger(seen: seq<Step>, step: Step, id: string, e: Event)
    requires Handed(seen, id, e) || (step.Begin? && Received(step, id) == Some(e))
    ensures Handed(seen + [step], id, e)
  {
    if Handed(seen, id, e) {
      var i :| 0 <= i < |seen| && seen[i].Begin? && Received(seen[i], id) == Some(e);
      assert (seen + [step])[i] == seen[i];
    } else {
      assert (seen + [step])[|seen|] == step;
    }
  }

  lemma StepComesFrom(w: World, id: string, seen: seq<Step>, step: Step)
    requires ComesFrom(w, id, seen)
    ensures ComesFrom(Do(w, id, step), id, seen + [step])
  {
    var w' := Do(w, id, step);
    forall h | h in w'.helpers && !w'.helpers[h].Leaving?
      ensures Handed(seen + [step], id, w'.helpers[h].event)
    {
      HandedLonger(seen, step, id, w'.helpers[h].event);
    }
    forall i | 0 <= i < |w'.committed|
      ensures Handed(seen + [step], id, w'.committed[i])
    {
      HandedLonger(seen, step, id, w'.committed[i]);
    }
  }

  lemma {:induction false} RunComesFrom(w: World, id: string, seen: seq<Step>, steps: seq<Step>)
    requires ComesFrom(w, id, seen)
    ensures ComesFrom(Run(w, id, steps), id, seen + steps)
    decreases |steps|
  {
    if steps == [] {
      assert seen + steps == seen;
    } else {
      StepComesFrom(w, id, seen, steps[0]);
      RunComesFrom(Do(w, id, steps[0]), id, seen + [steps[0]], steps[1..]);
      assert seen + [steps[0]] + steps[1..] == seen + steps;
    }
  }

  /**
   Every committed event was handed to some helper by the main session itself, and is
   what that input names: no child agent, no other session, no unknown event and no
   oversized input ever drives the feed.
   */
  lemma OnlyMainSessionDrives(id: string, steps: seq<Step>, e: Event)
    requires e in Run(EMPTY, id, steps).committed
    ensures OfMainSession(e.input, id) && Means(e.kind, e.input)
    ensures exists i :: (&& 0 <= i < |steps| && steps[i].Begin? && steps[i].input == e.input && steps[i].now == e.now)
  {
    RunComesFrom(EMPTY, id, [], steps);
    assert [] + steps == steps;
    assert Handed(steps, id, e);
    KindIsNamed(e.input);
    EventIffKnown(e.input, id);
  }

  // --------------------------------------------------- the feed, by what was named

  ghost predicate AllMeant(log: seq<Event>) {
    forall i :: 0 <= i < |log| ==> Means(log[i].kind, log[i].input)
  }

  /** The latest event that is no status line, and where it stands. */
  lemma {:induction false} LatestHookIsLast(log: seq<Event>, i: nat)
    requires AllMeant(log) && i < |log| && !FromStatusLine(log[i].input)
    requires forall j :: i < j < |log| ==> FromStatusLine(log[j].input)
    ensures LatestHook(log) == if Named(log[i].input, "SessionEnd") then None else Some(log[i])
  {
    var n := |log| - 1;
    assert Means(log[n].kind, log[n].input);
    if i < n {
      assert log[..n][i] == log[i];
      LatestHookIsLast(log[..n], i);
    }
  }

  lemma {:induction false} OnlyStatusLines(log: seq<Event>)
    requires AllMeant(log) && forall j :: 0 <= j < |log| ==> FromStatusLine(log[j].input)
    ensures LatestHook(log).None?
  {
    if log != [] {
      var n := |log| - 1;
      assert Means(log[n].kind, log[n].input);
      OnlyStatusLines(log[..n]);
    }
  }

  /** A status line counts until the next one, and until the session starts anew or ends. */
  predicate ReplacesContext(input: Input) {
    FromStatusLine(input) || Named(input, "SessionStart") || Named(input, "SessionEnd")
  }

  lemma {:induction false} LatestContextIsLast(log: seq<Event>, i: nat)
    requires AllMeant(log) && i < |log| && ReplacesContext(log[i].input)
    requires forall j :: i < j < |log| ==> !ReplacesContext(log[j].input)
    ensures FromStatusLine(log[i].input) ==> Nearest(LatestContext(log), log[i].input.payload.usedPercentage)
    ensures !FromStatusLine(log[i].input) ==> LatestContext(log).None?
  {
    var n := |log| - 1;
    assert Means(log[n].kind, log[n].input);
    if i < n {
      assert log[..n][i] == log[i];
      LatestContextIsLast(log[..n], i);
    }
  }

  lemma {:induction false} NothingReplacesContext(log: seq<Event>)
    requires AllMeant(log) && forall j :: 0 <= j < |log| ==> !ReplacesContext(log[j].input)
    ensures LatestContext(log).None?
  {
    if log != [] {
      var n := |log| - 1;
      assert Means(log[n].kind, log[n].input);
      NothingReplacesContext(log[..n]);
    }
  }

  /** Where the last hook stands, or -1. */
  function LastHook(log: seq<Event>): (i: int)
    ensures -1 <= i < |log| && (i >= 0 ==> !FromStatusLine(log[i].input))
    ensures forall j :: i < j < |log| ==> FromStatusLine(log[j].input)
  {
    if log == [] then -1
    else if !FromStatusLine(log[|log| - 1].input) then |log| - 1 else LastHook(log[..|log| - 1])
  }

  /** Where the last event that sets or clears the context stands, or -1. */
  function LastReplacing(log: seq<Event>): (i: int)
    ensures -1 <= i < |log| && (i >= 0 ==> ReplacesContext(log[i].input))
    ensures forall j :: i < j < |log| ==> !ReplacesContext(log[j].input)
  {
    if log == [] then -1
    else if ReplacesContext(log[|log| - 1].input) then |log| - 1 else LastReplacing(log[..|log| - 1])
  }

  lemma CommittedIsMeant(id: string, steps: seq<Step>)
    ensures AllMeant(Run(EMPTY, id, steps).committed)
  {
    var log := Run(EMPTY, id, steps).committed;
    forall i | 0 <= i < |log| ensures Means(log[i].kind, log[i].input) {
      OnlyMainSessionDrives(id, steps, log[i]);
    }
  }

  /**
   The feed by what its inputs were named. A file is there once an input was committed.
   It holds no session exactly if the last committed input was a "SessionEnd"; otherwise
   one, busy exactly if the last hook was a "UserPromptSubmit" and active when the last
   hook was; its context is the last status line's, unless the session started or ended
   since.
   */
  lemma FeedByName(id: string, steps: seq<Step>)
    ensures var w := Run(EMPTY, id, steps);
      && (w.file.None? <==> w.committed == [])
      && (w.file.Some? ==> SaysWhatWasNamed(w.file.value, w.committed))
  {
    FeedIsClosedForm(id, steps);
    CommittedIsMeant(id, steps);
    var log := Run(EMPTY, id, steps).committed;
    if log != [] {
      assert Means(log[|log| - 1].kind, log[|log| - 1].input);
      var hook, context := LastHook(log), LastReplacing(log);
      if hook >= 0 {
        assert Means(log[hook].kind, log[hook].input);
        LatestHookIsLast(log, hook);
      } else {
        OnlyStatusLines(log);
      }
      if context >= 0 {
        LatestContextIsLast(log, context);
      } else {
        NothingReplacesContext(log);
      }
    }
  }

  predicate SaysWhatWasNamed(feed: Feed, log: seq<Event>)
    requires log != []
  {
    var last, hook, context := log[|log| - 1], LastHook(log), LastReplacing(log);
    && feed.heartbeat == last.now
    && (feed.sessions == [] <==> Named(last.input, "SessionEnd"))
    && (feed.sessions != [] ==>
          var s := feed.sessions[0];
          && |feed.sessions| == 1
          && (s.busy <==> hook >= 0 && Named(log[hook].input, "UserPromptSubmit"))
          && s.lastActivity == (if hook >= 0 && !Named(log[hook].input, "SessionEnd") then log[hook].now else 0)
          && (if context >= 0 && FromStatusLine(log[context].input)
              then Nearest(s.contextPercent, log[context].input.payload.usedPercentage)
              else s.contextPercent.None?))
  }

  /**
   An ended session becomes visible again at the next committed event exactly when
   that event is a hook other than an end, not only a start.
   */
  lemma EndedSessionRevives(log: seq<Event>, id: string, e: Event)
    requires Ordered(log) && log != [] && log[|log| - 1].kind.SessionEnd?
    ensures Published(log, id).value.sessions == []
    ensures var next := Update(Published(log, id), id, e);
      (next.Some? && next.value.sessions != [])
      <==> log[|log| - 1].now <= e.now && !e.kind.StatusLine? && !e.kind.SessionEnd?
  {
    UpdateExtends(log, id, e);
  }

  // ------------------------------------------------------------ reader contract

  /**
   Every snapshot a run of helpers leaves is accepted by the reader from its
   heartbeat on for exactly sixty seconds, as one record or, once ended, none.
   */
  lemma ReaderAcceptsForAMinute(id: string, steps: seq<Step>, t: u64)
    requires SafeId(id)
    requires var file := Run(EMPTY, id, steps).file;
      file.Some? && file.value.heartbeat <= t
    ensures var feed := Run(EMPTY, id, steps).file.value;
      Normalize(feed, Claude, t)
      == if t < feed.heartbeat + 60_000
         then Records(if feed.sessions == [] then [] else [Record(feed, feed.sessions[0])])
         else StaleHeartbeat
  {
    FeedIsClosedForm(id, steps);
    var w := Run(EMPTY, id, steps);
    HookIsOld(w.committed);
    var feed := w.file.value;
    assert |feed.sessions| <= 1;
    assert feed.sessions != [] ==> SessionOk(feed.sessions[0], t);
    if feed.sessions != [] {
      assert MainRecords(feed, 0) == [];
      assert MainRecords(feed, 1) == [] + [Record(feed, feed.sessions[0])];
    }
  }
}
