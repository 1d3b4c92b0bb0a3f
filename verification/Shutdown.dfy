/** Stop safety: what the shutdown poll's report is worth, and exactly when. */
module Shutdown {
  import opened Basics
  import opened Protocol
  import opened Firmware
  import opened Panel
  import opened Driver
  import opened DriverSafety

  ghost predicate NoIdentify(steps: seq<Step>) {
    forall i :: 0 <= i < |steps| ==> !steps[i].StartIdentify?
  }

  // --------------------------------------------------- what the poll establishes

  /** What the shutdown poll has established so far. */
  ghost predicate Swept(s: System) {
    match s.poll
    case Idle => true
    case Scanning(todo, ok) =>
      s.stopping && (ok ==> forall p :: p in s.registry ==> s.registry[p] in todo || Calm(s, s.registry[p]))
    case Scanned(ok) =>
      s.stopping && (ok ==> forall p :: p in s.registry ==> Calm(s, s.registry[p]))
  }

  predicate JobWriter(s: System, t: TaskId) {
    t in s.tasks && s.tasks[t].Job? && s.tasks[t].Writer()
  }

  ghost predicate Stopped(s: System) {
    && s.stopping
    && (forall p :: p in s.registry ==> Calm(s, s.registry[p]))
    && (forall t :: t in s.tasks ==> !JobWriter(s, t))
  }

  ghost predicate StopInvariant(s: System) {
    Swept(s) && (s.complete ==> Stopped(s))
  }

  /** After the stop flag, a job that has not passed its checks changes no panel. */
  lemma RefusedWork(task: Task, p: PanelState, io: Io)
    requires task.Job? && task.Holds() && !task.Writer() && Fits(task, p)
    ensures WorkOn(task, p, true, io).panel == p
    ensures WorkOn(task, p, true, io).phase.Leaving? || WorkOn(task, p, true, io).phase.Done?
  {
  }

  /** After the stop flag, an identification leaves its panel closed when it is through. */
  lemma IdentifyLeavesClosed(task: Task, p: PanelState, io: Io)
    requires task.Identify? && task.Holds() && Fits(task, p)
    requires !task.Writer() ==> p.conn.None?
    ensures var w := WorkOn(task, p, true, io);
      w.phase.Done? || w.phase.Leaving? ==> w.panel.conn.None?
  {
    if task.phase.Ending? { IdentifyEndIsSound(p, true, io.sleep); }
  }

  lemma CalmJobWork(s: System, t: TaskId, io: Io, h: Handle)
    requires Invariant(s) && s.stopping && Calm(s, h) && Enabled(s, Work(t, io))
    requires s.tasks[t].Job? && s.tasks[t].phase.handle == h
    ensures Calm(DoWork(s, t, io), h)
  {
    WorkPanels(s, t, io);
    RefusedWork(s.tasks[t], s.heap[h].panel, io);
  }

  lemma CalmIdentifyWork(s: System, t: TaskId, io: Io, h: Handle)
    requires Invariant(s) && s.stopping && Calm(s, h) && Enabled(s, Work(t, io))
    requires s.tasks[t].Identify? && s.tasks[t].phase.handle == h
    ensures Calm(DoWork(s, t, io), h)
  {
    WorkPanels(s, t, io);
    WorkFits(s.tasks[t], s.heap[h].panel, s.stopping, io);
    IdentifyLeavesClosed(s.tasks[t], s.heap[h].panel, io);
  }

  lemma CalmOtherWork(s: System, t: TaskId, io: Io, h: Handle)
    requires Invariant(s) && Calm(s, h) && Enabled(s, Work(t, io)) && s.tasks[t].phase.handle != h
    ensures Calm(DoWork(s, t, io), h)
  {
    WorkFrame(s, t, io, h);
    if s.heap[h].holder.Some? {
      assert HeldBy(s, h, s.heap[h].holder.value);
    }
  }

  /** Once the stop flag is set, calm panels stay calm, whatever identifications do. */
  lemma CalmStays(s: System, step: Step, h: Handle)
    requires Invariant(s) && s.stopping && Calm(s, h)
    ensures Calm(Do(s, step), h)
  {
    if !step.Work? {
      PanelFrame(s, step, h);
    } else if Enabled(s, step) {
      if s.tasks[step.task].phase.handle != h {
        CalmOtherWork(s, step.task, step.io, h);
      } else if s.tasks[step.task].Job? {
        CalmJobWork(s, step.task, step.io, h);
      } else {
        CalmIdentifyWork(s, step.task, step.io, h);
      }
    }
  }

  lemma RefusedTask(s: System, t: TaskId, io: Io, u: TaskId)
    requires Invariant(s) && s.stopping && Enabled(s, Work(t, io)) && u in DoWork(s, t, io).tasks
    requires forall v :: v in s.tasks ==> !JobWriter(s, v)
    ensures !JobWriter(DoWork(s, t, io), u)
  {
    WorkTasks(s, t, io, u);
    WorkPanels(s, t, io);
    assert !JobWriter(s, t) && !JobWriter(s, u);
    if s.tasks[t].Job? {
      RefusedWork(s.tasks[t], s.heap[s.tasks[t].phase.handle].panel, io);
    }
  }

  /** No job passes its checks any more. */
  lemma NoNewJobWriter(s: System, step: Step)
    requires Invariant(s) && s.stopping
    requires forall t :: t in s.tasks ==> !JobWriter(s, t)
    ensures forall t :: t in Do(s, step).tasks ==> !JobWriter(Do(s, step), t)
  {
    if Enabled(s, step) {
      forall u | u in Do(s, step).tasks ensures !JobWriter(Do(s, step), u) {
        assert u in s.tasks ==> !JobWriter(s, u);
        match step
        case Lookup(t, present, unused, now) => LookupTasks(s, t, present, unused, now, u);
        case TryLock(t) => TryLockTasks(s, t, u);
        case Work(t, io) => RefusedTask(s, t, io, u);
        case _ =>
      }
    }
  }

  /** Panels a lookup registers are new and closed. */
  lemma LookupAddsClosed(s: System, t: TaskId, present: set<PortName>, unused: Handle, now: int, p: PortName)
    requires Enabled(s, Lookup(t, present, unused, now)) && p in DoLookup(s, t, present, unused, now).registry
    ensures var s' := DoLookup(s, t, present, unused, now);
      (p in s.registry && s.registry[p] == s'.registry[p]) || Calm(s', s'.registry[p])
  {
  }

  /** Registered panels after a step were registered before or are new and closed. */
  lemma RegistryGrowsByClosed(s: System, step: Step, p: PortName)
    requires Invariant(s) && p in Do(s, step).registry
    ensures var h := Do(s, step).registry[p];
      || (p in s.registry && s.registry[p] == h)
      || (step.Lookup? && Calm(Do(s, step), h))
  {
    if Enabled(s, step) {
      match step
      case Lookup(t, present, unused, now) => LookupAddsClosed(s, t, present, unused, now, p);
      case _ =>
    }
  }

  lemma EntryStaysCalm(s: System, step: Step, p: PortName)
    requires Invariant(s) && s.stopping && p in Do(s, step).registry
    requires p in s.registry && s.registry[p] == Do(s, step).registry[p] ==> Calm(s, s.registry[p])
    ensures Calm(Do(s, step), Do(s, step).registry[p])
  {
    RegistryGrowsByClosed(s, step, p);
    if p in s.registry && s.registry[p] == Do(s, step).registry[p] {
      CalmStays(s, step, s.registry[p]);
    }
  }

  lemma StopFlagLasts(s: System, step: Step)
    requires Invariant(s) && s.stopping
    ensures Do(s, step).stopping
  {
  }

  /** A panel is free and asleep right after the poll has been at it. */
  lemma PolledIsCalm(s: System, h: Handle, sleep: SleepIo)
    requires Structured(s) && Enabled(s, PollPanel(h, sleep)) && DoPollPanel(s, h, sleep).poll.ok
    requires h in s.heap
    ensures Calm(DoPollPanel(s, h, sleep), h)
  {
  }

  lemma ScansWhenStopping(s: System, step: Step)
    requires Invariant(s) && Swept(s) && !Do(s, step).poll.Idle?
    ensures Do(s, step).stopping
  {
    if s.stopping { StopFlagLasts(s, step); }
  }

  lemma LookupLeavesPoll(s: System, t: TaskId, present: set<PortName>, unused: Handle, now: int)
    requires Enabled(s, Lookup(t, present, unused, now))
    ensures DoLookup(s, t, present, unused, now).poll == s.poll
  {
  }

  lemma TryLockLeavesPoll(s: System, t: TaskId)
    requires Structured(s) && Enabled(s, TryLock(t))
    ensures DoTryLock(s, t).poll == s.poll
  {
  }

  lemma EvictLeavesPoll(s: System, t: TaskId, port: PortName, sleep: SleepIo)
    requires Structured(s) && Enabled(s, Evict(t, port, sleep))
    ensures DoEvict(s, t, port, sleep).poll == s.poll
  {
  }

  /** A step that is not the poll's leaves the poll alone. */
  lemma PollStays(s: System, step: Step)
    requires Invariant(s) && !step.StartPoll? && !step.PollPanel? && !step.EndPoll?
    ensures Do(s, step).poll == s.poll
  {
    if Enabled(s, step) {
      match step
      case Lookup(t, present, unused, now) => LookupLeavesPoll(s, t, present, unused, now);
      case TryLock(t) => TryLockLeavesPoll(s, t);
      case Evict(t, port, sleep) => EvictLeavesPoll(s, t, port, sleep);
      case _ =>
    }
  }

  /** To be done, or calm. */
  predicate EntrySwept(s: System, p: PortName)
    requires p in s.registry
  {
    (s.poll.Scanning? && s.registry[p] in s.poll.todo) || Calm(s, s.registry[p])
  }

  lemma OtherStepSweeps(s: System, step: Step, p: PortName)
    requires Invariant(s) && Swept(s) && p in Do(s, step).registry
    requires !step.StartPoll? && !step.PollPanel? && !step.EndPoll?
    requires !s.poll.Idle? && s.poll.ok
    ensures EntrySwept(Do(s, step), p)
  {
    PollStays(s, step);
    if !(s.poll.Scanning? && Do(s, step).registry[p] in s.poll.todo) {
      EntryStaysCalm(s, step, p);
    }
  }

  lemma PollStepSweeps(s: System, h: Handle, sleep: SleepIo, p: PortName)
    requires Invariant(s) && Swept(s) && p in s.registry && Enabled(s, PollPanel(h, sleep))
    requires DoPollPanel(s, h, sleep).poll.ok
    ensures EntrySwept(DoPollPanel(s, h, sleep), p)
  {
    if s.registry[p] == h {
      PolledIsCalm(s, h, sleep);
    } else if s.registry[p] !in s.poll.todo {
      CalmStays(s, PollPanel(h, sleep), s.registry[p]);
    }
  }

  lemma SignalSweeps(s: System, step: Step, p: PortName)
    requires Invariant(s) && Swept(s) && p in s.registry && Enabled(s, step) && (step.StartPoll? || step.EndPoll?)
    requires !DoPlain(s, step).poll.Idle? && DoPlain(s, step).poll.ok
    ensures EntrySwept(DoPlain(s, step), p)
  {
    if step.StartPoll? {
      assert s.registry[p] in s.registry.Values;
    }
  }

  /** A good scan has left every registered panel still to be done, or calm. */
  lemma ScanStep(s: System, step: Step, p: PortName)
    requires Invariant(s) && Swept(s) && p in Do(s, step).registry
    requires var poll := Do(s, step).poll; !poll.Idle? && poll.ok
    ensures EntrySwept(Do(s, step), p)
  {
    if Enabled(s, step) {
      match step
      case PollPanel(h, sleep) => PollStepSweeps(s, h, sleep, p);
      case StartPoll => SignalSweeps(s, step, p);
      case EndPoll => SignalSweeps(s, step, p);
      case _ =>
        PollStays(s, step);
        OtherStepSweeps(s, step, p);
    }
  }

  lemma SweepStep(s: System, step: Step)
    requires Invariant(s) && Swept(s)
    ensures Swept(Do(s, step))
  {
    var s' := Do(s, step);
    if !s'.poll.Idle? { ScansWhenStopping(s, step); }
    if !s'.poll.Idle? && s'.poll.ok {
      forall p | p in s'.registry ensures EntrySwept(s', p) {
        ScanStep(s, step, p);
      }
    }
  }

  lemma StoppedStays(s: System, step: Step)
    requires Invariant(s) && Stopped(s)
    ensures Stopped(Do(s, step))
  {
    StopFlagLasts(s, step);
    NoNewJobWriter(s, step);
    forall p | p in Do(s, step).registry ensures Calm(Do(s, step), Do(s, step).registry[p]) {
      EntryStaysCalm(s, step, p);
    }
  }

  lemma NoJobsNoWriters(s: System)
    requires Structured(s) && s.jobs == {}
    ensures forall t :: t in s.tasks ==> !JobWriter(s, t)
  {
    assert forall t :: t in s.tasks ==> !s.tasks[t].Counted();
  }

  lemma OnlyReportsComplete(s: System, step: Step)
    requires Invariant(s) && !s.complete && Do(s, step).complete
    ensures Enabled(s, step) && step.EndPoll? && s.poll.Scanned? && s.poll.ok && s.jobs == {}
  {
  }

  /** The report is made over an empty job set behind a good scan. */
  lemma ReportIsRight(s: System, step: Step)
    requires Invariant(s) && Swept(s) && !s.complete && Do(s, step).complete
    ensures Stopped(Do(s, step))
  {
    OnlyReportsComplete(s, step);
    NoJobsNoWriters(s);
    var s' := DoPlain(s, EndPoll);
    assert s'.heap == s.heap && s'.tasks == s.tasks && s'.registry == s.registry;
    assert forall p :: p in s.registry ==> Calm(s', s.registry[p]);
    assert forall t :: t in s.tasks ==> !JobWriter(s', t);
  }

  lemma {:induction false} RunKeepsStop(s: System, steps: seq<Step>)
    requires Invariant(s) && StopInvariant(s)
    ensures StopInvariant(Run(s, steps))
    decreases |steps|
  {
    if steps != [] {
      StepKeeps(s, steps[0]);
      StepKeepsStop(s, steps[0]);
      RunKeepsStop(Do(s, steps[0]), steps[1..]);
    }
  }

  lemma StepKeepsStop(s: System, step: Step)
    requires Invariant(s) && StopInvariant(s)
    ensures StopInvariant(Do(s, step))
  {
    SweepStep(s, step);
    if s.complete {
      StoppedStays(s, step);
    } else if Do(s, step).complete {
      ReportIsRight(s, step);
    }
  }

  // ------------------------------------------------------------ safe to leave

  function TrafficOf(s: System, h: Handle): seq<Conn> {
    if h in s.heap then Traffic(s.heap[h].panel) else []
  }

  /**
   An identification that may still write: it has not looked its panel up, or its
   panel is not quarantined, or it is past its checks with something left to write.
   */
  predicate Threat(s: System, t: TaskId) {
    && t in s.tasks && s.tasks[t].Identify?
    && match s.tasks[t].phase
       case Start => true
       case Found(h) => h in s.heap && !s.heap[h].panel.needsReplug
       case Locked(h) => h in s.heap && !s.heap[h].panel.needsReplug
       case Ending(h) => h in s.heap && s.heap[h].panel.conn.Some?
       case Leaving(_) => false
       case Done => false
       case _ => true
  }

  ghost predicate Harmless(s: System) {
    forall t :: t in s.tasks ==> !Threat(s, t)
  }

  /** Nothing was written, and the quarantine flag stays. */
  predicate Still(p: PanelState, q: PanelState) {
    q.conn == p.conn && q.closed == p.closed && q.needsReplug == p.needsReplug
  }

  ghost predicate AllStill(s: System, s': System) {
    forall h :: h in s.heap ==> h in s'.heap && Still(s.heap[h].panel, s'.heap[h].panel)
  }

  lemma HarmlessWork(s: System, t: TaskId, io: Io)
    requires Invariant(s) && Stopped(s) && Harmless(s) && Enabled(s, Work(t, io))
    ensures AllStill(s, DoWork(s, t, io))
    ensures t in DoWork(s, t, io).tasks ==>
      DoWork(s, t, io).tasks[t].phase.Leaving? || DoWork(s, t, io).tasks[t].phase.Done?
  {
    var task, h := s.tasks[t], s.tasks[t].phase.handle;
    WorkPanels(s, t, io);
    assert !Threat(s, t) && !JobWriter(s, t);
    if task.Job? {
      RefusedWork(task, s.heap[h].panel, io);
    } else {
      HarmlessIdentify(task, s.heap[h].panel, io);
    }
  }

  lemma HarmlessIdentify(task: Task, p: PanelState, io: Io)
    requires task.Identify? && task.Holds() && Fits(task, p)
    requires task.phase.Leaving? || (task.phase.Locked? && p.needsReplug) || (task.phase.Ending? && p.conn.None?)
    ensures Still(p, WorkOn(task, p, true, io).panel)
    ensures WorkOn(task, p, true, io).phase.Leaving? || WorkOn(task, p, true, io).phase.Done?
  {
  }

  lemma SleepIsStill(p: PanelState, sleep: SleepIo)
    requires p.conn.None?
    ensures Still(p, SleepPanel(p, sleep))
  {
  }

  lemma EvictIsStill(s: System, t: TaskId, port: PortName, sleep: SleepIo)
    requires Structured(s) && Stopped(s) && Enabled(s, Evict(t, port, sleep))
    ensures AllStill(s, DoEvict(s, t, port, sleep))
  {
    if s.heap[s.registry[port]].holder.None? {
      SleepIsStill(s.heap[s.registry[port]].panel, sleep);
    }
  }

  lemma PollIsStill(s: System, h: Handle, sleep: SleepIo)
    requires Structured(s) && Stopped(s) && Enabled(s, PollPanel(h, sleep))
    ensures AllStill(s, DoPollPanel(s, h, sleep))
  {
    RegisteredIsPolled(s, h);
    assert Calm(s, h);
    if s.heap[h].holder.None? {
      SleepIsStill(s.heap[h].panel, sleep);
    }
  }

  lemma LookupIsStill(s: System, t: TaskId, present: set<PortName>, unused: Handle, now: int)
    requires Enabled(s, Lookup(t, present, unused, now))
    ensures AllStill(s, DoLookup(s, t, present, unused, now))
  {
    forall h | h in s.heap
      ensures h in DoLookup(s, t, present, unused, now).heap
      ensures Still(s.heap[h].panel, DoLookup(s, t, present, unused, now).heap[h].panel)
    {
      LookupCell(s, t, present, unused, now, h);
    }
  }

  lemma TryLockIsStill(s: System, t: TaskId)
    requires Structured(s) && Enabled(s, TryLock(t))
    ensures AllStill(s, DoTryLock(s, t))
  {
  }

  /** Without a threat, no step writes anywhere. */
  lemma StepIsStill(s: System, step: Step)
    requires Invariant(s) && Stopped(s) && Harmless(s)
    ensures AllStill(s, Do(s, step))
  {
    if Enabled(s, step) {
      match step
      case Work(t, io) => HarmlessWork(s, t, io);
      case Evict(t, port, sleep) => EvictIsStill(s, t, port, sleep);
      case PollPanel(h, sleep) => PollIsStill(s, h, sleep);
      case Lookup(t, present, unused, now) => LookupIsStill(s, t, present, unused, now);
      case TryLock(t) => TryLockIsStill(s, t);
      case _ =>
    }
  }

  /** A task that is the same, on panels that are still, is no new threat. */
  lemma SameIsHarmless(s: System, s': System, t: TaskId)
    requires Structured(s) && AllStill(s, s') && t in s.tasks && !Threat(s, t)
    requires t in s'.tasks && s'.tasks[t] == s.tasks[t]
    ensures !Threat(s', t)
  {
  }

  lemma LookupMovesOne(s: System, t: TaskId, present: set<PortName>, unused: Handle, now: int, u: TaskId)
    requires Enabled(s, Lookup(t, present, unused, now)) && u in DoLookup(s, t, present, unused, now).tasks
    ensures u in s.tasks && (u != t ==> DoLookup(s, t, present, unused, now).tasks[u] == s.tasks[u])
    ensures DoLookup(s, t, present, unused, now).tasks[u].Identify? == s.tasks[u].Identify?
  {
  }

  lemma LookupIsHarmless(s: System, t: TaskId, present: set<PortName>, unused: Handle, now: int, u: TaskId)
    requires Structured(s) && Harmless(s) && Enabled(s, Lookup(t, present, unused, now))
    requires u in DoLookup(s, t, present, unused, now).tasks
    ensures !Threat(DoLookup(s, t, present, unused, now), u)
  {
    assert u in s.tasks && !Threat(s, t) && !Threat(s, u);
    LookupMovesOne(s, t, present, unused, now, u);
    if u != t {
      LookupIsStill(s, t, present, unused, now);
      SameIsHarmless(s, DoLookup(s, t, present, unused, now), u);
    }
  }

  lemma TryLockIsHarmless(s: System, t: TaskId, u: TaskId)
    requires Structured(s) && Harmless(s) && Enabled(s, TryLock(t)) && u in DoTryLock(s, t).tasks
    ensures !Threat(DoTryLock(s, t), u)
  {
    assert u in s.tasks && !Threat(s, t) && !Threat(s, u);
    TryLockIsStill(s, t);
    if u != t {
      SameIsHarmless(s, DoTryLock(s, t), u);
    }
  }

  lemma ThroughIsHarmless(s: System, t: TaskId)
    requires t in s.tasks && (!s.tasks[t].Router? ==> s.tasks[t].phase.Leaving? || s.tasks[t].phase.Done?)
    ensures !Threat(s, t)
  {
  }

  lemma WorkIsHarmless(s: System, t: TaskId, io: Io, u: TaskId)
    requires Invariant(s) && Stopped(s) && Harmless(s) && Enabled(s, Work(t, io)) && u in DoWork(s, t, io).tasks
    ensures !Threat(DoWork(s, t, io), u)
  {
    WorkTasks(s, t, io, u);
    HarmlessWork(s, t, io);
    if u != t {
      SameIsHarmless(s, DoWork(s, t, io), u);
    } else {
      ThroughIsHarmless(DoWork(s, t, io), u);
    }
  }

  lemma PlainIsHarmless(s: System, step: Step, u: TaskId)
    requires Structured(s) && Harmless(s) && Enabled(s, step) && !step.StartIdentify?
    requires u in DoPlain(s, step).tasks
    ensures !Threat(DoPlain(s, step), u)
  {
    assert u in s.tasks ==> !Threat(s, u);
  }

  lemma EvictIsHarmless(s: System, t: TaskId, port: PortName, sleep: SleepIo, u: TaskId)
    requires Structured(s) && Stopped(s) && Harmless(s) && Enabled(s, Evict(t, port, sleep))
    requires u in DoEvict(s, t, port, sleep).tasks
    ensures !Threat(DoEvict(s, t, port, sleep), u)
  {
    EvictIsStill(s, t, port, sleep);
    SameIsHarmless(s, DoEvict(s, t, port, sleep), u);
  }

  lemma PollIsHarmless(s: System, h: Handle, sleep: SleepIo, u: TaskId)
    requires Structured(s) && Stopped(s) && Harmless(s) && Enabled(s, PollPanel(h, sleep))
    requires u in DoPollPanel(s, h, sleep).tasks
    ensures !Threat(DoPollPanel(s, h, sleep), u)
  {
    PollIsStill(s, h, sleep);
    SameIsHarmless(s, DoPollPanel(s, h, sleep), u);
  }

  lemma TaskIsHarmless(s: System, step: Step, u: TaskId)
    requires Invariant(s) && Stopped(s) && Harmless(s) && !step.StartIdentify?
    requires Enabled(s, step) && u in Do(s, step).tasks
    ensures !Threat(Do(s, step), u)
  {
    match step
    case Work(t, io) => WorkIsHarmless(s, t, io, u);
    case Lookup(t, present, unused, now) => LookupIsHarmless(s, t, present, unused, now, u);
    case TryLock(t) => TryLockIsHarmless(s, t, u);
    case Evict(t, port, sleep) => EvictIsHarmless(s, t, port, sleep, u);
    case PollPanel(h, sleep) => PollIsHarmless(s, h, sleep, u);
    case _ => PlainIsHarmless(s, step, u);
  }

  lemma StepIsHarmless(s: System, step: Step)
    requires Invariant(s) && Stopped(s) && Harmless(s) && !step.StartIdentify?
    ensures Harmless(Do(s, step))
  {
    if Enabled(s, step) {
      forall u | u in Do(s, step).tasks ensures !Threat(Do(s, step), u) {
        TaskIsHarmless(s, step, u);
      }
    }
  }

  lemma NewPanelIsSilent(s: System, step: Step, h: Handle)
    requires Invariant(s) && h !in s.heap
    ensures TrafficOf(Do(s, step), h) == []
  {
    if !step.Lookup? && h in Do(s, step).heap {
      NoNewPanel(s, step, h);
    }
  }

  lemma {:induction false} SilentRun(s: System, steps: seq<Step>, h: Handle)
    requires Invariant(s) && Stopped(s) && Harmless(s) && NoIdentify(steps)
    ensures TrafficOf(Run(s, steps), h) == TrafficOf(s, h)
    decreases |steps|
  {
    if steps != [] {
      assert !steps[0].StartIdentify?;
      StepKeeps(s, steps[0]);
      StoppedStays(s, steps[0]);
      StepIsStill(s, steps[0]);
      StepIsHarmless(s, steps[0]);
      if h !in s.heap { NewPanelIsSilent(s, steps[0], h); }
      assert TrafficOf(Do(s, steps[0]), h) == TrafficOf(s, h);
      assert NoIdentify(steps[1..]);
      SilentRun(Do(s, steps[0]), steps[1..], h);
    }
  }

  lemma CompleteIsStopped(before: seq<Step>)
    ensures After(before).complete ==> Stopped(After(before))
  {
    InitialHolds();
    RunKeepsStop(INITIAL, before);
  }

  /** Registered panels of a harmless system are closed, held or not. */
  lemma HarmlessIsClosed(s: System, p: PortName)
    requires Invariant(s) && Stopped(s) && Harmless(s) && p in s.registry
    ensures s.heap[s.registry[p]].panel.conn.None?
  {
    var h := s.registry[p];
    assert Calm(s, h);
    if s.heap[h].holder.Some? {
      assert HeldBy(s, h, s.heap[h].holder.value);
      assert !Threat(s, s.heap[h].holder.value);
    }
  }

  /** A connection of a registered panel that was stored and met no error left the module asleep. */
  predicate AsleepBehind(s: System, p: PortName, c: Conn, display: Display) {
    p in s.registry && s.registry[p] in s.heap && c in s.heap[s.registry[p]].panel.closed && c.kept && !c.failed
    ==> var out := Feed(Device([], display), c.log);
        out.AtBoundary() && !out.display.awake
  }

  /**
   When the shutdown poll has reported complete and no identification in flight may
   still write: every registered port is closed, no task is past its checks but an
   identification with nothing left to write, and nothing that runs later writes a
   byte on any panel. What ran before the report is of no account.
   */
  lemma StopSafety(before: seq<Step>, later: seq<Step>, h: Handle)
    requires After(before).complete && Harmless(After(before)) && NoIdentify(later)
    ensures var s := After(before);
      && (forall p :: p in s.registry ==> s.heap[s.registry[p]].panel.conn.None?)
      && (forall t :: t in s.tasks && s.tasks[t].Writer() ==> s.tasks[t].Identify? && s.tasks[t].phase.Ending?)
    ensures forall p, c, display :: AsleepBehind(After(before), p, c, display)
    ensures TrafficOf(After(before + later), h) == TrafficOf(After(before), h)
  {
    var s := After(before);
    forall p, c, display ensures AsleepBehind(s, p, c, display) {
      if p in s.registry && c in s.heap[s.registry[p]].panel.closed && c.kept && !c.failed {
        ClosedIsAsleep(before, s.registry[p], c, display);
      }
    }
    InitialHolds();
    CompleteIsStopped(before);
    RunAppend(INITIAL, before, later);
    SilentRun(s, later, h);
    forall p | p in s.registry ensures s.heap[s.registry[p]].panel.conn.None? {
      HarmlessIsClosed(s, p);
    }
    forall t | t in s.tasks && s.tasks[t].Writer() ensures s.tasks[t].Identify? && s.tasks[t].phase.Ending? {
      assert !JobWriter(s, t) && !Threat(s, t);
    }
  }
}
