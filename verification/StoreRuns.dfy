/**
 The store over whole runs: clients applying, previewing, cancelling and leaving in
 any order, the clock advancing, the process crashing anywhere and starting again.
 The store's mutex makes every call one step, except that an apply can crash before,
 between and after its save and its publishing.
 */
module StoreRuns {
  import opened Basics
  import opened Configuration
  import opened ConfigFile
  import opened Store

  type SessionId = nat

  /** A connection whose preview began and whose guard has not been dropped. */
  datatype Session = Session(owner: string, generation: u32)

  /** How far the apply that holds the store's mutex has come. */
  datatype Progress = Idle | Saving(expected: u32, next: SavedConfig) | Renamed(next: SavedConfig)

  /** A preview that began in this process. */
  datatype Preview = Preview(owner: string, generation: u32, config: Config, at: int, seconds: byte) {
    function Until(): int {
      at + 1000 * seconds
    }
  }

  /** `previews` and `ended` record what clients were told; the code keeps neither. */
  datatype Process = Process(
    store: StoreState, sessions: map<SessionId, Session>, progress: Progress,
    previews: seq<Preview>, ended: set<u32>)

  /** A replaced document; `replied` once the client has been told. */
  datatype Commit = Commit(expected: u32, saved: SavedConfig, replied: bool)

  datatype World = World(process: Option<Process>, file: File, now: int, history: seq<Commit>, crashes: nat)

  datatype Step =
    | Start
    | Crash
    | Tick(elapsed: nat)
    | Show  // the clock loop asks what to show
    | BeginApply(expected: u32, config: Config)
    | Rename(ok: bool)
    | Publish
    | BeginPreview(session: SessionId, owner: string, config: Config, seconds: byte)
    | CancelPreview(owner: string)
    | Leave(session: SessionId)  // the session ends and its guard is dropped

  function Last<T>(s: seq<T>): T
    requires s != []
  {
    s[|s| - 1]
  }

  function Replied(history: seq<Commit>): seq<Commit>
    requires history != []
  {
    history[|history| - 1 := Last(history).(replied := true)]
  }

  /** The steps of an apply. */
  function DoApply(w: World, p: Process, step: Step): World {
    match step
    case BeginApply(expected, config) =>
      if p.progress.Idle? && Admit(p.store, expected, config).Applied?
      then w.(process := Some(p.(progress := Saving(expected, Next(p.store, config)))))
      else w
    case Rename(ok) =>
      if !p.progress.Saving? then w
      else if ok then
        w.(process := Some(p.(progress := Renamed(p.progress.next))), file := Written(p.progress.next),
           history := w.history + [Commit(p.progress.expected, p.progress.next, false)])
      else w.(process := Some(p.(progress := Idle)))
    case Publish =>
      if p.progress.Renamed? && w.history != [] then
        w.(process := Some(p.(progress := Idle, store := p.store.(saved := p.progress.next))),
           history := Replied(w.history))
      else w
    case _ => w
  }

  /** The steps of previews, taken while no apply holds the mutex. */
  function DoPreview(p: Process, now: int, step: Step): Process {
    match step
    case Show => p.(store := Expired(p.store, now))
    case BeginPreview(x, owner, config, seconds) =>
      var reply := BeginReply(p.store, owner, config, seconds, now);
      if x in p.sessions || !reply.Started? then p
      else
        p.(store := Begin(p.store, owner, config, seconds, now),
           sessions := p.sessions[x := Session(owner, reply.generation)],
           previews := p.previews + [Preview(owner, reply.generation, config, now, seconds)])
    case CancelPreview(owner) =>
      p.(store := Cancelled(p.store, owner, None),
         ended := if p.previews != [] && Last(p.previews).owner == owner
                  then p.ended + {Last(p.previews).generation} else p.ended)
    case Leave(x) =>
      if x !in p.sessions then p
      else
        var session := p.sessions[x];
        p.(store := Cancelled(p.store, session.owner, Some(session.generation)),
           sessions := p.sessions - {x}, ended := p.ended + {session.generation})
    case _ => p
  }

  /** One step; a step out of turn does nothing. */
  function Do(w: World, step: Step): World {
    match step
    case Start =>
      if w.process.None? && Load(w.file).Opened?
      then w.(process := Some(Process(StoreState(Load(w.file).saved, None, 0), map[], Idle, [], {})))
      else w
    case Crash => if w.process.None? then w else w.(process := None, crashes := w.crashes + 1)
    case Tick(elapsed) => w.(now := w.now + elapsed)
    case _ =>
      if w.process.None? then w
      else if step.BeginApply? || step.Rename? || step.Publish? then DoApply(w, w.process.value, step)
      else if w.process.value.progress.Idle? then w.(process := Some(DoPreview(w.process.value, w.now, step)))
      else w
  }

  function Run(w: World, steps: seq<Step>): World
    decreases |steps|
  {
    if steps == [] then w else Run(Do(w, steps[0]), steps[1..])
  }

  function From(file: File): World {
    World(None, file, 0, [], 0)
  }

  lemma {:induction false} RunAppend(w: World, a: seq<Step>, b: seq<Step>)
    ensures Run(w, a + b) == Run(Run(w, a), b)
    decreases |a|
  {
    if a == [] {
      assert a + b == b;
    } else {
      assert (a + b)[1..] == a[1..] + b;
      RunAppend(Do(w, a[0]), a[1..], b);
    }
  }

  // ---------------------------------------------------------- durable history

  /** The newest document: the last one saved, or the one the run began with. */
  function Latest(base: SavedConfig, history: seq<Commit>): SavedConfig {
    if history == [] then base else Last(history).saved
  }

  /** Every commit replaced the revision it expected with the next one. */
  ghost predicate Chained(base: SavedConfig, history: seq<Commit>) {
    forall i :: 0 <= i < |history| ==>
      history[i].expected == Latest(base, history[..i]).revision
      && history[i].saved.revision == history[i].expected + 1
  }

  function Unreplied(history: seq<Commit>): nat {
    if history == [] then 0
    else Unreplied(history[..|history| - 1]) + if Last(history).replied then 0 else 1
  }

  /** What the process knows of the newest document. */
  ghost predicate InStep(base: SavedConfig, w: World) {
    w.process.Some? ==>
      var p := w.process.value;
      match p.progress
      case Idle => p.store.saved == Latest(base, w.history)
      case Saving(expected, next) =>
        && p.store.saved == Latest(base, w.history) && expected == p.store.saved.revision
        && next.revision == expected + 1 && next.config.Valid()
      case Renamed(next) =>
        w.history != [] && Last(w.history).saved == next && !Last(w.history).replied
  }

  /** A reply may be outstanding for the apply in progress and for each crash. */
  ghost predicate RepliesOwed(w: World) {
    Unreplied(w.history) <= w.crashes + if w.process.Some? && w.process.value.progress.Renamed? then 1 else 0
  }

  ghost predicate Durable(base: SavedConfig, w: World) {
    && Load(w.file) == Opened(Latest(base, w.history))
    && Chained(base, w.history) && InStep(base, w) && RepliesOwed(w)
  }

  lemma AppendChained(base: SavedConfig, history: seq<Commit>, c: Commit)
    requires Chained(base, history)
    requires c.expected == Latest(base, history).revision && c.saved.revision == c.expected + 1
    ensures Chained(base, history + [c])
    ensures Unreplied(history + [c]) == Unreplied(history) + if c.replied then 0 else 1
  {
    var longer := history + [c];
    assert longer[..|history|] == history;
    forall i | 0 <= i < |history|
      ensures longer[i].expected == Latest(base, longer[..i]).revision
    {
      assert longer[..i] == history[..i];
    }
  }

  lemma ReplyChained(base: SavedConfig, history: seq<Commit>)
    requires Chained(base, history) && history != [] && !Last(history).replied
    ensures Chained(base, Replied(history)) && Unreplied(Replied(history)) == Unreplied(history) - 1
    ensures Latest(base, Replied(history)) == Latest(base, history)
  {
    var n := |history| - 1;
    assert Replied(history)[..n] == history[..n];
    forall i | 0 <= i < |history|
      ensures Replied(history)[i].expected == Latest(base, Replied(history)[..i]).revision
    {
      assert Replied(history)[..i] == history[..i];
    }
  }

  lemma ApplyIsDurable(base: SavedConfig, w: World, step: Step)
    requires Durable(base, w) && w.process.Some?
    ensures Durable(base, DoApply(w, w.process.value, step))
  {
    var p := w.process.value;
    if step.Rename? && p.progress.Saving? && step.ok {
      LoadReadsWritten(p.progress.next);
      AppendChained(base, w.history, Commit(p.progress.expected, p.progress.next, false));
    } else if step.Publish? && p.progress.Renamed? {
      ReplyChained(base, w.history);
    }
  }

  lemma PreviewKeepsSaved(p: Process, now: int, step: Step)
    ensures DoPreview(p, now, step).store.saved == p.store.saved
    ensures DoPreview(p, now, step).progress == p.progress
  {
  }

  lemma StepIsDurable(base: SavedConfig, w: World, step: Step)
    requires Durable(base, w)
    ensures Durable(base, Do(w, step))
  {
    if w.process.Some? {
      ApplyIsDurable(base, w, step);
      PreviewKeepsSaved(w.process.value, w.now, step);
    }
  }

  lemma {:induction false} RunIsDurable(base: SavedConfig, w: World, steps: seq<Step>)
    requires Durable(base, w)
    ensures Durable(base, Run(w, steps))
    decreases |steps|
  {
    if steps != [] {
      StepIsDurable(base, w, steps[0]);
      RunIsDurable(base, Do(w, steps[0]), steps[1..]);
    }
  }

  /**
   Durable linear history. From any file that loads (a legacy one included), after
   any run with crashes anywhere: loading the file gives the newest document, which
   is also what a running process holds between calls; every document ever saved
   replaced exactly the revision its client expected with the next one; and replies
   are missing for no more saves than there were crashes, plus the one in progress.
   */
  lemma DurableHistory(file: File, steps: seq<Step>)
    requires Load(file).Opened?
    ensures var base := Load(file).saved;
      var w := Run(From(file), steps);
      && Load(w.file) == Opened(Latest(base, w.history))
      && (w.process.Some? && w.process.value.progress.Idle? ==>
            w.process.value.store.saved == Latest(base, w.history))
      && Chained(base, w.history)
      && Unreplied(w.history) <= w.crashes + (if w.process.Some? && w.process.value.progress.Renamed? then 1 else 0)
  {
    RunIsDurable(Load(file).saved, From(file), steps);
  }

  /** The later history extends the earlier one and takes no reply back. */
  ghost predicate Extends(later: seq<Commit>, earlier: seq<Commit>) {
    && |earlier| <= |later|
    && forall i :: 0 <= i < |earlier| ==>
         later[i].expected == earlier[i].expected && later[i].saved == earlier[i].saved
         && (earlier[i].replied ==> later[i].replied)
  }

  lemma StepExtends(w: World, step: Step)
    ensures Extends(Do(w, step).history, w.history)
  {
  }

  lemma ExtendsTwice(a: seq<Commit>, b: seq<Commit>, c: seq<Commit>)
    requires Extends(b, a) && Extends(c, b)
    ensures Extends(c, a)
  {
  }

  lemma {:induction false} HistoryGrows(w: World, steps: seq<Step>)
    ensures Extends(Run(w, steps).history, w.history)
    decreases |steps|
  {
    if steps != [] {
      StepExtends(w, steps[0]);
      HistoryGrows(Do(w, steps[0]), steps[1..]);
      ExtendsTwice(w.history, Do(w, steps[0]).history, Run(w, steps).history);
    }
  }

  lemma {:induction false} RevisionsCount(base: SavedConfig, history: seq<Commit>, i: nat)
    requires Chained(base, history) && i < |history|
    ensures history[i].saved.revision == base.revision + i + 1
  {
    assert history[i].expected == Latest(base, history[..i]).revision;
    if i > 0 {
      assert Last(history[..i]) == history[i - 1];
      RevisionsCount(base, history, i - 1);
    }
  }

  /**
   No Applied revision is ever lost: once a client has been told, then after any
   later run the document is still in the history, the file loads, and what it loads
   is that document or one of a higher revision.
   */
  lemma NoAppliedRevisionIsLost(file: File, before: seq<Step>, later: seq<Step>, i: nat)
    requires Load(file).Opened? && i < |Run(From(file), before).history|
    requires Run(From(file), before).history[i].replied
    ensures var applied := Run(From(file), before).history[i].saved;
      var w := Run(From(file), before + later);
      && i < |w.history| && w.history[i].replied && w.history[i].saved == applied
      && Load(w.file).Opened?
      && (Load(w.file).saved == applied || Load(w.file).saved.revision > applied.revision)
  {
    var base := Load(file).saved;
    RunAppend(From(file), before, later);
    HistoryGrows(Run(From(file), before), later);
    RunIsDurable(base, From(file), before + later);
    var w := Run(From(file), before + later);
    RevisionsCount(base, w.history, i);
    RevisionsCount(base, w.history, |w.history| - 1);
  }

  /** A file that does not load is never touched, and no process comes up over it. */
  lemma {:induction false} RefusedFileStays(w: World, steps: seq<Step>)
    requires w.process.None? && Load(w.file).Refused?
    ensures Run(w, steps).file == w.file && Run(w, steps).process.None?
    decreases |steps|
  {
    if steps != [] {
      RefusedFileStays(Do(w, steps[0]), steps[1..]);
    }
  }

  // ------------------------------------------------------------ preview leases

  /** Is the newest preview of the process still on? */
  predicate LastLives(p: Process, now: int) {
    p.previews != [] && Last(p.previews).generation !in p.ended && now < Last(p.previews).Until()
  }

  /** Generations count up from one. */
  ghost predicate Numbered(p: Process) {
    && p.store.nextLease == |p.previews|
    && (forall i :: 0 <= i < |p.previews| ==> p.previews[i].generation == i + 1)
    && forall g :: g in p.ended ==> g <= p.store.nextLease
  }

  /** No preview begins before the one before it was ended or ran out. */
  ghost predicate Exclusive(p: Process, now: int) {
    && (forall i :: 0 <= i < |p.previews| ==> 1 <= p.previews[i].seconds <= 15 && p.previews[i].at <= now)
    && forall i :: 0 < i < |p.previews| ==>
         p.previews[i - 1].generation in p.ended || p.previews[i - 1].Until() <= p.previews[i].at
  }

  /** The lease is the newest preview, and is there as long as that preview is on. */
  ghost predicate Leased(p: Process, now: int) {
    && (p.store.preview.Some? ==>
          var lease := p.store.preview.value;
          && p.previews != [] && Last(p.previews).generation !in p.ended
          && lease == Lease(Last(p.previews).owner, Last(p.previews).generation,
                            Last(p.previews).config, Last(p.previews).Until()))
    && (LastLives(p, now) ==> p.store.preview.Some?)
  }

  /** Sessions hold distinct generations, each its own preview's. */
  ghost predicate SessionsFit(p: Process) {
    && (forall x :: x in p.sessions ==>
          var s := p.sessions[x];
          1 <= s.generation <= |p.previews| && p.previews[s.generation - 1].owner == s.owner)
    && forall x, y :: x in p.sessions && y in p.sessions && x != y ==>
         p.sessions[x].generation != p.sessions[y].generation
  }

  ghost predicate PreviewsFit(p: Process, now: int) {
    Numbered(p) && Exclusive(p, now) && Leased(p, now) && SessionsFit(p)
  }

  /** What a begun preview adds. */
  function Adding(p: Process, x: SessionId, preview: Preview): Process {
    p.(store := p.store.(preview := Some(Lease(preview.owner, preview.generation, preview.config, preview.Until())),
                         nextLease := preview.generation),
       sessions := p.sessions[x := Session(preview.owner, preview.generation)],
       previews := p.previews + [preview])
  }

  lemma AddingIsNumbered(p: Process, x: SessionId, preview: Preview)
    requires Numbered(p) && preview.generation == p.store.nextLease + 1
    ensures Numbered(Adding(p, x, preview))
  {
  }

  lemma AddingIsExclusive(p: Process, now: int, x: SessionId, preview: Preview)
    requires Exclusive(p, now) && !LastLives(p, now)
    requires preview.at == now && 1 <= preview.seconds <= 15
    ensures Exclusive(Adding(p, x, preview), now)
  {
    var longer := Adding(p, x, preview).previews;
    assert forall i :: 0 <= i < |p.previews| ==> longer[i] == p.previews[i];
  }

  lemma AddingIsLeased(p: Process, now: int, x: SessionId, preview: Preview)
    requires preview.generation !in p.ended
    ensures Leased(Adding(p, x, preview), now)
  {
    assert Last(Adding(p, x, preview).previews) == preview;
  }

  lemma AddingFitsSessions(p: Process, x: SessionId, preview: Preview)
    requires SessionsFit(p) && x !in p.sessions && preview.generation == |p.previews| + 1
    ensures SessionsFit(Adding(p, x, preview))
  {
    var p' := Adding(p, x, preview);
    assert forall i :: 0 <= i < |p.previews| ==> p'.previews[i] == p.previews[i];
  }

  lemma AddingFits(p: Process, now: int, x: SessionId, preview: Preview)
    requires PreviewsFit(p, now) && x !in p.sessions && !PreviewActive(p.store, now)
    requires preview.generation == p.store.nextLease + 1 && preview.at == now && 1 <= preview.seconds <= 15
    ensures PreviewsFit(Adding(p, x, preview), now)
  {
    assert !LastLives(p, now);
    AddingIsNumbered(p, x, preview);
    AddingIsExclusive(p, now, x, preview);
    AddingIsLeased(p, now, x, preview);
    AddingFitsSessions(p, x, preview);
  }

  lemma BeginIsAdding(p: Process, now: int, x: SessionId, owner: string, config: Config, seconds: byte)
    ensures var p' := DoPreview(p, now, BeginPreview(x, owner, config, seconds));
      || p' == p
      || (x !in p.sessions && !PreviewActive(p.store, now) && 1 <= seconds <= 15 && p.store.nextLease < U32_MAX
          && p' == Adding(p, x, Preview(owner, p.store.nextLease + 1, config, now, seconds)))
  {
  }

  lemma BeginFits(p: Process, now: int, x: SessionId, owner: string, config: Config, seconds: byte)
    requires PreviewsFit(p, now)
    ensures PreviewsFit(DoPreview(p, now, BeginPreview(x, owner, config, seconds)), now)
  {
    BeginIsAdding(p, now, x, owner, config, seconds);
    var p' := DoPreview(p, now, BeginPreview(x, owner, config, seconds));
    if p' != p {
      AddingFits(p, now, x, Preview(owner, p.store.nextLease + 1, config, now, seconds));
    }
  }

  lemma LeaveFitsSessions(p: Process, now: int, x: SessionId)
    requires SessionsFit(p)
    ensures SessionsFit(DoPreview(p, now, Leave(x)))
  {
  }

  lemma LeaveFits(p: Process, now: int, x: SessionId)
    requires PreviewsFit(p, now)
    ensures PreviewsFit(DoPreview(p, now, Leave(x)), now)
  {
    LeaveFitsSessions(p, now, x);
    if x in p.sessions && p.previews != [] && Last(p.previews).generation == p.sessions[x].generation {
      assert Last(p.previews).owner == p.sessions[x].owner;
    }
  }

  lemma CancelFits(p: Process, now: int, owner: string)
    requires PreviewsFit(p, now)
    ensures PreviewsFit(DoPreview(p, now, CancelPreview(owner)), now)
  {
  }

  lemma ShowFits(p: Process, now: int)
    requires PreviewsFit(p, now)
    ensures PreviewsFit(DoPreview(p, now, Show), now)
  {
  }

  lemma PreviewStepFits(p: Process, now: int, step: Step)
    requires PreviewsFit(p, now)
    ensures PreviewsFit(DoPreview(p, now, step), now)
  {
    match step
    case BeginPreview(x, owner, config, seconds) => BeginFits(p, now, x, owner, config, seconds);
    case Leave(x) => LeaveFits(p, now, x);
    case CancelPreview(owner) => CancelFits(p, now, owner);
    case Show => ShowFits(p, now);
    case _ =>
  }

  /** An apply leaves everything about previews alone. */
  lemma ApplyKeepsPreviews(w: World, p: Process, step: Step)
    requires w.process == Some(p)
    ensures var w' := DoApply(w, p, step);
      && w'.now == w.now && w'.process.Some?
      && w'.process.value.store.preview == p.store.preview && w'.process.value.store.nextLease == p.store.nextLease
      && w'.process.value.sessions == p.sessions && w'.process.value.previews == p.previews
      && w'.process.value.ended == p.ended
  {
  }

  lemma SamePreviewsFit(p: Process, q: Process, now: int, later: int)
    requires PreviewsFit(p, now) && now <= later
    requires q.store.preview == p.store.preview && q.store.nextLease == p.store.nextLease
    requires q.sessions == p.sessions && q.previews == p.previews && q.ended == p.ended
    ensures PreviewsFit(q, later)
  {
  }

  lemma StepFits(w: World, step: Step)
    requires w.process.Some? ==> PreviewsFit(w.process.value, w.now)
    ensures Do(w, step).process.Some? ==> PreviewsFit(Do(w, step).process.value, Do(w, step).now)
  {
    if w.process.Some? {
      var p := w.process.value;
      match step
      case Start =>
      case Crash =>
      case Tick(elapsed) => SamePreviewsFit(p, p, w.now, w.now + elapsed);
      case BeginApply(_, _) => ApplyStepFits(w, step);
      case Rename(_) => ApplyStepFits(w, step);
      case Publish => ApplyStepFits(w, step);
      case _ => PreviewStepFits(p, w.now, step);
    } else if step.Start? && Load(w.file).Opened? {
      StartFits(w);
    }
  }

  lemma StartFits(w: World)
    requires w.process.None? && Load(w.file).Opened?
    ensures PreviewsFit(Do(w, Start).process.value, w.now)
  {
  }

  lemma ApplyStepFits(w: World, step: Step)
    requires w.process.Some? && PreviewsFit(w.process.value, w.now)
    ensures DoApply(w, w.process.value, step).process.Some?
    ensures PreviewsFit(DoApply(w, w.process.value, step).process.value, DoApply(w, w.process.value, step).now)
  {
    ApplyKeepsPreviews(w, w.process.value, step);
    SamePreviewsFit(w.process.value, DoApply(w, w.process.value, step).process.value, w.now, w.now);
  }

  lemma {:induction false} RunFits(w: World, steps: seq<Step>)
    requires w.process.Some? ==> PreviewsFit(w.process.value, w.now)
    ensures Run(w, steps).process.Some? ==> PreviewsFit(Run(w, steps).process.value, Run(w, steps).now)
    decreases |steps|
  {
    if steps != [] {
      StepFits(w, steps[0]);
      RunFits(Do(w, steps[0]), steps[1..]);
    }
  }

  /**
   After any run, in a running process between calls: what is shown is the newest
   preview while it was neither ended nor ran out, otherwise the newest document; a
   preview is shown for at most fifteen seconds after it began; previews never
   overlapped; and at most one session owns the preview.
   */
  lemma OutputIsLiveLeaseOrLatest(file: File, steps: seq<Step>)
    requires Load(file).Opened?
    requires Run(From(file), steps).process.Some? && Run(From(file), steps).process.value.progress.Idle?
    ensures var w := Run(From(file), steps);
      var p := w.process.value;
      && Output(p.store, w.now)
         == (if LastLives(p, w.now) then Last(p.previews).config else Latest(Load(file).saved, w.history).config)
      && (LastLives(p, w.now) ==> w.now < Last(p.previews).at + 15_000)
      && Exclusive(p, w.now)
      && forall x, y :: (x in p.sessions && y in p.sessions
                         && Owns(p.store, p.sessions[x].owner, p.sessions[x].generation, w.now)
                         && Owns(p.store, p.sessions[y].owner, p.sessions[y].generation, w.now)) ==> x == y
  {
    RunFits(From(file), steps);
    DurableHistory(file, steps);
  }

  /**
   A session that leaves ends no preview but its own: another session that owns the
   preview still owns it, even under the same owner name, and the output stays.
   */
  lemma LeavingEndsOnlyOwnPreview(file: File, steps: seq<Step>, x: SessionId, y: SessionId)
    requires Run(From(file), steps).process.Some?
    requires var w := Run(From(file), steps);
      var p := w.process.value;
      x != y && x in p.sessions && y in p.sessions
      && Owns(p.store, p.sessions[y].owner, p.sessions[y].generation, w.now)
    ensures var w := Run(From(file), steps);
      var p, p' := w.process.value, DoPreview(w.process.value, w.now, Leave(x));
      && y in p'.sessions && Owns(p'.store, p'.sessions[y].owner, p'.sessions[y].generation, w.now)
      && Output(p'.store, w.now) == Output(p.store, w.now)
  {
    RunFits(From(file), steps);
  }

  /**
   A preview begins exactly if it is well-formed, the newest one is no longer on and a
   generation is left; it is then shown at once. Otherwise nothing changes.
   */
  lemma PreviewBeginsIff(file: File, steps: seq<Step>, x: SessionId, owner: string, config: Config, seconds: byte)
    requires Load(file).Opened?
    requires Run(From(file), steps).process.Some? && Run(From(file), steps).process.value.progress.Idle?
    requires x !in Run(From(file), steps).process.value.sessions
    ensures var w := Run(From(file), steps);
      var w' := Do(w, BeginPreview(x, owner, config, seconds));
      var p := w.process.value;
      if 1 <= |owner| <= 64 && (forall i :: 0 <= i < |owner| ==> OwnerChar(owner[i]))
         && 1 <= seconds <= 15 && config.Valid() && !LastLives(p, w.now) && |p.previews| < 0xffff_ffff
      then
        && w'.process.Some?
        && w'.process.value.previews == p.previews + [Preview(owner, |p.previews| + 1, config, w.now, seconds)]
        && Output(w'.process.value.store, w.now) == config
      else w' == w
  {
    RunFits(From(file), steps);
  }

  // ----------------------------------------------------------------- one apply

  /** The steps of an apply that nothing disturbs. */
  function Undisturbed(w: World, expected: u32, config: Config, saved: bool): World {
    Run(w, [BeginApply(expected, config), Rename(saved), Publish])
  }

  lemma RunThree(w: World, a: Step, b: Step, c: Step)
    ensures Run(w, [a, b, c]) == Do(Do(Do(w, a), b), c)
  {
    assert [a, b, c][1..] == [b, c] && [b, c][1..] == [c] && [c][1..] == [];
    assert Run(Do(Do(w, a), b), [c]) == Run(Do(Do(Do(w, a), b), c), []);
  }

  lemma BeginSaves(w: World, p: Process, expected: u32, config: Config)
    requires w.process == Some(p) && p.progress.Idle? && config.Valid()
    requires expected == p.store.saved.revision && expected < U32_MAX
    ensures Do(w, BeginApply(expected, config))
         == w.(process := Some(p.(progress := Saving(expected, SavedConfig(expected + 1, config)))))
  {
  }

  lemma RenameCommits(w: World, p: Process, expected: u32, next: SavedConfig)
    requires w.process == Some(p) && p.progress == Saving(expected, next)
    ensures Do(w, Rename(true)) == w.(process := Some(p.(progress := Renamed(next))), file := Written(next),
                                      history := w.history + [Commit(expected, next, false)])
    ensures Do(w, Rename(false)) == w.(process := Some(p.(progress := Idle)))
  {
  }

  lemma PublishReplies(w: World, p: Process, history: seq<Commit>, c: Commit)
    requires w.process == Some(p) && p.progress == Renamed(c.saved) && w.history == history + [c]
    ensures Do(w, Publish) == w.(process := Some(p.(progress := Idle, store := p.store.(saved := c.saved))),
                                 history := history + [c.(replied := true)])
  {
    assert Replied(w.history) == history + [c.(replied := true)];
  }

  lemma IdlePublishesNothing(w: World, p: Process)
    requires w.process == Some(p) && p.progress.Idle?
    ensures Do(w, Publish) == w
  {
  }

  lemma UndisturbedApplies(w: World, p: Process, expected: u32, config: Config)
    requires w.process == Some(p) && p.progress.Idle? && config.Valid()
    requires expected == p.store.saved.revision && expected < U32_MAX
    ensures var next := SavedConfig(expected + 1, config);
      Undisturbed(w, expected, config, true)
      == w.(process := Some(p.(store := p.store.(saved := next))), file := Written(next),
            history := w.history + [Commit(expected, next, true)])
  {
    var next := SavedConfig(expected + 1, config);
    var saving := p.(progress := Saving(expected, next));
    var begun := w.(process := Some(saving));
    assert Do(w, BeginApply(expected, config)) == begun by { BeginSaves(w, p, expected, config); }
    var kept := p.(progress := Renamed(next));
    var renamed := begun.(process := Some(kept), file := Written(next),
                          history := w.history + [Commit(expected, next, false)]);
    assert Do(begun, Rename(true)) == renamed by { RenameCommits(begun, saving, expected, next); }
    PublishReplies(renamed, kept, w.history, Commit(expected, next, false));
    RunThree(w, BeginApply(expected, config), Rename(true), Publish);
  }

  lemma FailedSaveIsNothing(w: World, p: Process, expected: u32, config: Config)
    requires w.process == Some(p) && p.progress.Idle? && config.Valid()
    requires expected == p.store.saved.revision && expected < U32_MAX
    ensures Undisturbed(w, expected, config, false) == w
  {
    var next := SavedConfig(expected + 1, config);
    var saving := p.(progress := Saving(expected, next));
    var begun := w.(process := Some(saving));
    assert Do(w, BeginApply(expected, config)) == begun by { BeginSaves(w, p, expected, config); }
    RenameCommits(begun, saving, expected, next);
    IdlePublishesNothing(w, p);
    RunThree(w, BeginApply(expected, config), Rename(false), Publish);
  }

  /**
   An apply of a valid configuration with the newest revision, saved and not disturbed,
   makes it the newest document, of the next revision; if the save fails, nothing
   changes. Any other apply changes nothing, and its reply says why and names the
   newest document.
   */
  lemma ApplyExact(file: File, steps: seq<Step>, expected: u32, config: Config)
    requires Load(file).Opened?
    requires Run(From(file), steps).process.Some? && Run(From(file), steps).process.value.progress.Idle?
    ensures var w := Run(From(file), steps);
      var latest := Latest(Load(file).saved, w.history);
      if config.Valid() && expected == latest.revision && latest.revision < 0xffff_ffff
      then
        var next := SavedConfig(latest.revision + 1, config);
        var w' := Undisturbed(w, expected, config, true);
        && Load(w'.file) == Opened(next) && w'.history == w.history + [Commit(expected, next, true)]
        && w'.process.Some? && w'.process.value.store.saved == next
        && Undisturbed(w, expected, config, false) == w
      else
        && Do(w, BeginApply(expected, config)) == w
        && ApplyReply(w.process.value.store, expected, config, true)
           == Reply(if !config.Valid() then IsInvalid else if expected != latest.revision then Conflict else SaveFailed,
                    latest)
  {
    DurableHistory(file, steps);
    var w := Run(From(file), steps);
    if config.Valid() && expected == w.process.value.store.saved.revision && expected < U32_MAX {
      UndisturbedApplies(w, w.process.value, expected, config);
      FailedSaveIsNothing(w, w.process.value, expected, config);
      LoadReadsWritten(SavedConfig(expected + 1, config));
    }
  }

  // ------------------------------------------------------------- valid output

  ghost predicate LeaseValid(w: World) {
    w.process.Some? && w.process.value.store.preview.Some? ==> w.process.value.store.preview.value.config.Valid()
  }

  lemma PreviewStepKeepsValid(p: Process, now: int, step: Step)
    requires p.store.preview.Some? ==> p.store.preview.value.config.Valid()
    ensures var q := DoPreview(p, now, step);
      q.store.preview.Some? ==> q.store.preview.value.config.Valid()
  {
    if step.BeginPreview? {
      var reply := BeginReply(p.store, step.owner, step.config, step.seconds, now);
      assert reply.Started? ==> PreviewRequest(step.owner, step.config, step.seconds);
    }
  }

  lemma StepKeepsLeaseValid(w: World, step: Step)
    requires LeaseValid(w)
    ensures LeaseValid(Do(w, step))
  {
    if w.process.Some? {
      PreviewStepKeepsValid(w.process.value, w.now, step);
      ApplyKeepsPreviews(w, w.process.value, step);
    }
  }

  lemma {:induction false} RunKeepsLeaseValid(w: World, steps: seq<Step>)
    requires LeaseValid(w)
    ensures LeaseValid(Run(w, steps))
    decreases |steps|
  {
    if steps != [] {
      StepKeepsLeaseValid(w, steps[0]);
      RunKeepsLeaseValid(Do(w, steps[0]), steps[1..]);
    }
  }

  /** Whatever clients, crashes and files do, only valid configurations are shown. */
  lemma OutputIsValid(file: File, steps: seq<Step>)
    requires Load(file).Opened?
    requires Run(From(file), steps).process.Some? && Run(From(file), steps).process.value.progress.Idle?
    ensures Output(Run(From(file), steps).process.value.store, Run(From(file), steps).now).Valid()
  {
    DurableHistory(file, steps);
    LoadedIsValid(Run(From(file), steps).file);
    RunKeepsLeaseValid(From(file), steps);
  }
}
