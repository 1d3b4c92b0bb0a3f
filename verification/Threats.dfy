/**
 The other half of stop safety: whenever an identification in flight may still
 write, some run does write, so the condition under which the report can be relied
 on is exact.
 */
module Threats {
  import opened Basics
  import opened Protocol
  import opened Firmware
  import opened Panel
  import opened Driver
  import opened DriverSafety
  import opened Shutdown

  ghost predicate WritesOn(s: System, later: seq<Step>, h: Handle)
    requires Invariant(s)
  {
    NoIdentify(later) && TrafficOf(Run(s, later), h) != TrafficOf(s, h)
  }

  /** Some run without new identifications writes. */
  ghost predicate MayWrite(s: System)
    requires Invariant(s)
  {
    exists later: seq<Step>, h: Handle :: WritesOn(s, later, h)
  }

  lemma RunCons(s: System, step: Step, rest: seq<Step>)
    requires Invariant(s)
    ensures Invariant(Do(s, step)) && Run(s, [step] + rest) == Run(Do(s, step), rest)
  {
    StepKeeps(s, step);
    assert ([step] + rest)[0] == step && ([step] + rest)[1..] == rest;
  }

  lemma NoIdentifyCons(step: Step, rest: seq<Step>)
    requires !step.StartIdentify? && NoIdentify(rest)
    ensures NoIdentify([step] + rest)
  {
  }

  lemma OneStepRun(s: System, step: Step)
    requires Invariant(s)
    ensures Run(s, [step]) == Do(s, step)
  {
    RunCons(s, step, []);
    assert [step] + [] == [step];
  }

  lemma StepWrites(s: System, step: Step, h: Handle)
    requires Invariant(s) && !step.StartIdentify? && TrafficOf(Do(s, step), h) != TrafficOf(s, h)
    ensures MayWrite(s)
  {
    OneStepRun(s, step);
    assert NoIdentify([step]);
    assert WritesOn(s, [step], h);
  }

  lemma LaterWrites(s: System, step: Step, s': System, later: seq<Step>, h: Handle)
    requires Invariant(s) && !step.StartIdentify? && Invariant(s') && s' == Do(s, step)
    requires WritesOn(s', later, h) && TrafficOf(s', h) == TrafficOf(s, h)
    ensures MayWrite(s)
  {
    RunCons(s, step, later);
    NoIdentifyCons(step, later);
    assert WritesOn(s, [step] + later, h);
  }

  /** What may write after a step, may write before it. */
  lemma MayWriteBefore(s: System, step: Step)
    requires Invariant(s) && !step.StartIdentify? && Invariant(Do(s, step)) && MayWrite(Do(s, step))
    ensures MayWrite(s)
  {
    var s' := Do(s, step);
    var later, h :| WritesOn(s', later, h);
    if TrafficOf(s', h) != TrafficOf(s, h) {
      StepWrites(s, step, h);
    } else {
      LaterWrites(s, step, s', later, h);
    }
  }

  // ------------------------------------------------------- the panel's last word

  /** Everything goes well, and the identification is still wanted. */
  function Loud(now: int): Io {
    Io(now, now, OpenIo(true, Sent, Sent, Some((0, 0x20, 0))), Sent, SleepIo(Sent, true),
       true, 32, seq(BITMAP, _ => 0), Blank(), None)
  }

  lemma SendLengthens(c: Conn, first: Command, rest: seq<Command>)
    ensures |Send(c, [first] + rest, Sent).log| > |c.log|
  {
    EncodeAllHead(first, rest);
    assert |Encode(first)| >= 3;
  }

  lemma LongerIsOther(p: PanelState, q: PanelState)
    requires p.conn.Some? && q.closed == p.closed && q.conn.Some? && |q.conn.value.log| > |p.conn.value.log|
    ensures Traffic(q) != Traffic(p)
  {
    assert Traffic(p)[|p.closed|] == p.conn.value && Traffic(q)[|p.closed|] == q.conn.value;
  }

  lemma SendIsLoud(p: PanelState, first: Command, rest: seq<Command>, now: int)
    requires p.conn.Some?
    ensures Traffic(SendStage(p, [first] + rest, now, Sent).panel) != Traffic(p)
  {
    SendLengthens(p.conn.value, first, rest);
    LongerIsOther(p, SendStage(p, [first] + rest, now, Sent).panel);
  }

  lemma SleepIsLoud(p: PanelState)
    requires p.conn.Some?
    ensures Traffic(SleepPanel(p, SleepIo(Sent, true))) != Traffic(p)
  {
    var q := SleepPanel(p, SleepIo(Sent, true));
    SendLengthens(p.conn.value, Sleep(1), []);
    assert [Sleep(1)] + [] == [Sleep(1)];
    assert Traffic(p)[|p.closed|] == p.conn.value;
    assert Traffic(q)[|p.closed|].log == Send(p.conn.value, [Sleep(1)], Sent).log;
  }

  lemma WakeIsLoud(p: PanelState, now: int)
    ensures Traffic(WakeStage(p, now, Sent, Loud(now).open).panel) != Traffic(p)
  {
    if p.conn.Some? {
      SendIsLoud(p, Sleep(0), [], now);
      assert [Sleep(0)] + [] == [Sleep(0)];
      assert WakeStage(p, now, Sent, Loud(now).open).panel == SendStage(p, [Sleep(0)], now, Sent).panel;
    } else {
      assert |Traffic(WakeStage(p, now, Sent, Loud(now).open).panel)| == |Traffic(p)| + 1;
    }
  }

  lemma FlashIsLoud(p: PanelState, now: int)
    requires p.conn.Some?
    ensures Traffic(FlashStage(p, true, 32, Loud(now).bits, now, Sent).panel) != Traffic(p)
  {
    SendIsLoud(p, Brightness(32), [DrawBw(Loud(now).bits)], now);
    assert [Brightness(32)] + [DrawBw(Loud(now).bits)] == [Brightness(32), DrawBw(Loud(now).bits)];
  }

  lemma RestoreIsLoud(p: PanelState, now: int)
    requires p.conn.Some?
    ensures Traffic(SendStage(p, GreyscaleCommands(Blank()), now, Sent).panel) != Traffic(p)
  {
    var cs := GreyscaleCommands(Blank());
    SendIsLoud(p, cs[0], cs[1..], now);
    assert [cs[0]] + cs[1..] == cs;
  }

  /** An identification past its checks with something to write writes it next. */
  lemma WriterIsLoud(task: Task, p: PanelState, now: int)
    requires task.Identify? && task.Holds() && Fits(task, p)
    requires task.phase.Ending? ==> p.conn.Some?
    requires !task.phase.Locked? && !task.phase.Leaving?
    ensures Traffic(WorkOn(task, p, true, Loud(now)).panel) != Traffic(p)
  {
    match task.phase
    case Checked(_) => WakeIsLoud(p, now);
    case Ready(_) => FlashIsLoud(p, now);
    case Restoring(_) => RestoreIsLoud(p, now);
    case Leveling(_) => SleepIsLoud(p);
    case Ending(_) =>
      SleepIsLoud(p.(frame := None));
      assert Traffic(p.(frame := None)) == Traffic(p);
    case _ =>
  }

  lemma WriterWrites(s: System, t: TaskId)
    requires Invariant(s) && s.stopping && t in s.tasks && s.tasks[t].Identify? && s.tasks[t].Writer()
    requires s.tasks[t].phase.Ending? ==> s.heap[s.tasks[t].phase.handle].panel.conn.Some?
    ensures MayWrite(s)
  {
    var h := s.tasks[t].phase.handle;
    var step := Work(t, Loud(0));
    WorkPanels(s, t, Loud(0));
    WriterIsLoud(s.tasks[t], s.heap[h].panel, 0);
    assert h in Do(s, step).heap;
    StepWrites(s, step, h);
  }

  lemma LockedWrites(s: System, t: TaskId)
    requires Invariant(s) && s.stopping && t in s.tasks && s.tasks[t].Identify? && s.tasks[t].phase.Locked?
    requires !s.heap[s.tasks[t].phase.handle].panel.needsReplug
    ensures MayWrite(s)
  {
    var h := s.tasks[t].phase.handle;
    var io := Loud(s.heap[h].panel.retryAt);
    var step := Work(t, io);
    WorkPanels(s, t, io);
    assert WorkOn(s.tasks[t], s.heap[h].panel, true, io).phase == Checked(h);
    StepKeeps(s, step);
    WriterWrites(Do(s, step), t);
    MayWriteBefore(s, step);
  }

  // ------------------------------------------------------- others get out of the way

  /** How far a task is from letting go of its panel. */
  function Rank(phase: Phase): nat {
    match phase
    case Start => 0
    case Found(_) => 9
    case Locked(_) => 8
    case Checked(_) => 7
    case Ready(_) => 6
    case Painting(_) => 5
    case Restoring(_) => 4
    case Leveling(_) => 3
    case Ending(_) => 2
    case Leaving(_) => 1
    case Done => 0
  }

  lemma JobGoesOn(task: Task, p: PanelState, stopping: bool, io: Io)
    requires task.Job? && task.Holds()
    requires task.phase.Painting? ==> p.conn.Some? && task.level.Some?
    ensures Rank(JobWork(task, p, stopping, io).phase) < Rank(task.phase)
  {
  }

  lemma IdentifyGoesOn(task: Task, p: PanelState, stopping: bool, io: Io)
    requires task.Identify? && task.Holds()
    requires task.phase.Ready? || task.phase.Restoring? || task.phase.Leveling? ==> p.conn.Some?
    ensures Rank(IdentifyWork(task, p, stopping, io).phase) < Rank(task.phase)
  {
  }

  lemma WorkGoesOn(task: Task, p: PanelState, stopping: bool, io: Io)
    requires task.Holds() && Fits(task, p)
    ensures Rank(WorkOn(task, p, stopping, io).phase) < Rank(task.phase)
  {
    if task.Job? {
      JobGoesOn(task, p, stopping, io);
    } else {
      IdentifyGoesOn(task, p, stopping, io);
    }
  }

  /** A holder at work comes closer to letting go; everyone else stays as they are. */
  lemma HolderGoesOn(s: System, u: TaskId, io: Io)
    requires Invariant(s) && Enabled(s, Work(u, io))
    ensures var s' := DoWork(s, u, io);
      && (forall t :: t in s.tasks && t != u ==> t in s'.tasks && s'.tasks[t] == s.tasks[t])
      && (u in s'.tasks ==> Rank(s'.tasks[u].phase) < Rank(s.tasks[u].phase))
      && s'.heap[s.tasks[u].phase.handle].holder
         == if u in s'.tasks && s'.tasks[u].Holds() then Some(u) else None
  {
    WorkPanels(s, u, io);
    WorkGoesOn(s.tasks[u], s.heap[s.tasks[u].phase.handle].panel, s.stopping, io);
    WorkMovesOn(s, u, io);
  }

  /** With everything going well no panel gets quarantined. */
  lemma FineStaysFine(task: Task, p: PanelState, stopping: bool, now: int)
    requires task.Holds() && Fits(task, p) && !p.needsReplug
    ensures !WorkOn(task, p, stopping, Loud(now)).panel.needsReplug
  {
  }

  /** An identification that found an unquarantined panel gets at it and writes. */
  lemma {:induction false} FoundWrites(s: System, t: TaskId)
    requires Invariant(s) && s.stopping && t in s.tasks && s.tasks[t].Identify? && s.tasks[t].phase.Found?
    requires !s.heap[s.tasks[t].phase.handle].panel.needsReplug
    ensures MayWrite(s)
    decreases var holder := s.heap[s.tasks[t].phase.handle].holder;
      if holder.Some? then Rank(s.tasks[holder.value].phase) else 0
  {
    var h := s.tasks[t].phase.handle;
    if s.heap[h].holder.None? {
      StepKeeps(s, TryLock(t));
      LockedWrites(Do(s, TryLock(t)), t);
      MayWriteBefore(s, TryLock(t));
    } else {
      var u, io := s.heap[h].holder.value, Loud(0);
      assert HeldBy(s, h, u);
      WorkPanels(s, u, io);
      FineStaysFine(s.tasks[u], s.heap[h].panel, s.stopping, 0);
      HolderGoesOn(s, u, io);
      StepKeeps(s, Work(u, io));
      FoundWrites(Do(s, Work(u, io)), t);
      MayWriteBefore(s, Work(u, io));
    }
  }

  // -------------------------------------------------------- still to look it up

  /** The tasks that refer to a panel. */
  function Referring(s: System): set<TaskId> {
    set t | t in s.tasks && s.tasks[t].HasHandle()
  }

  lemma {:induction false} UnusedHandle(used: set<Handle>) returns (n: Handle)
    ensures forall h :: h in used ==> h < n
    decreases used
  {
    n := 0;
    if used != {} {
      var x :| x in used;
      n := UnusedHandle(used - {x});
      n := if x < n then n else x + 1;
      forall h | h in used ensures h < n {
        if h != x { assert h in used - {x}; }
      }
    }
  }

  /** With nobody referring to a panel, a lookup on an empty bus makes a new one. */
  lemma LoneLookupWrites(s: System, t: TaskId)
    requires Invariant(s) && s.stopping && !s.poll.Scanning? && Referring(s) == {}
    requires t in s.tasks && s.tasks[t].Identify? && s.tasks[t].phase.Start?
    ensures MayWrite(s)
  {
    var unused := UnusedHandle(s.heap.Keys);
    assert unused !in s.heap;
    var step := Lookup(t, {}, unused, 0);
    assert Retained(s, {}) == map[] by {
      forall h ensures !Referenced(s, h) {
        assert forall u :: u in s.tasks && s.tasks[u].HasHandle() ==> u in Referring(s);
      }
    }
    StepKeeps(s, step);
    FoundWrites(Do(s, step), t);
    MayWriteBefore(s, step);
  }

  /** A task that refers to a panel takes its next step. */
  function Onward(s: System, u: TaskId): Step
    requires u in s.tasks && s.tasks[u].HasHandle()
  {
    if s.tasks[u].phase.Found? then TryLock(u) else Work(u, Loud(0))
  }

  lemma TryLockGoesOn(s: System, u: TaskId)
    requires Structured(s) && Enabled(s, TryLock(u))
    ensures var s' := DoTryLock(s, u);
      && (forall t :: t in s.tasks && t != u ==> t in s'.tasks && s'.tasks[t] == s.tasks[t])
      && (forall t :: t in s'.tasks ==> t in s.tasks)
      && (u in s'.tasks ==> Rank(s'.tasks[u].phase) < Rank(s.tasks[u].phase))
      && s'.poll == s.poll && s'.stopping == s.stopping
  {
  }

  lemma WorkersStay(s: System, u: TaskId, io: Io)
    requires Invariant(s) && Enabled(s, Work(u, io))
    ensures var s' := DoWork(s, u, io);
      (forall t :: t in s'.tasks ==> t in s.tasks) && s'.poll == s.poll && s'.stopping == s.stopping
  {
    WorkMovesOn(s, u, io);
  }

  lemma OnwardGoesOn(s: System, u: TaskId)
    requires Invariant(s) && u in s.tasks && s.tasks[u].HasHandle()
    ensures var s' := Do(s, Onward(s, u));
      && (forall t :: t in s.tasks && t != u ==> t in s'.tasks && s'.tasks[t] == s.tasks[t])
      && (forall t :: t in s'.tasks ==> t in s.tasks)
      && (u in s'.tasks ==> Rank(s'.tasks[u].phase) < Rank(s.tasks[u].phase))
      && s'.poll == s.poll && s'.stopping == s.stopping
  {
    if s.tasks[u].phase.Found? {
      TryLockGoesOn(s, u);
    } else {
      HolderGoesOn(s, u, Loud(0));
      WorkersStay(s, u, Loud(0));
    }
  }

  lemma ReferringShrinks(s: System, s': System, u: TaskId)
    requires forall t :: t in s.tasks && t != u ==> t in s'.tasks && s'.tasks[t] == s.tasks[t]
    requires (forall t :: t in s'.tasks ==> t in s.tasks) && u in Referring(s)
    ensures Referring(s') == if u in Referring(s') then Referring(s) else Referring(s) - {u}
  {
    assert forall t :: t != u ==> (t in Referring(s') <==> t in Referring(s));
  }

  /** All other tasks run to their end, one after the other; then the lookup is alone. */
  lemma {:induction false} StartWrites(s: System, t: TaskId)
    requires Invariant(s) && s.stopping && !s.poll.Scanning?
    requires t in s.tasks && s.tasks[t].Identify? && s.tasks[t].phase.Start?
    ensures MayWrite(s)
    decreases |Referring(s)|, 10
  {
    if Referring(s) == {} {
      LoneLookupWrites(s, t);
    } else {
      var u :| u in Referring(s);
      StartWritesBehind(s, t, u);
    }
  }

  lemma {:induction false} StartWritesBehind(s: System, t: TaskId, u: TaskId)
    requires Invariant(s) && s.stopping && !s.poll.Scanning? && u in Referring(s)
    requires t in s.tasks && s.tasks[t].Identify? && s.tasks[t].phase.Start?
    ensures MayWrite(s)
    decreases |Referring(s)|, Rank(s.tasks[u].phase)
  {
    var step := Onward(s, u);
    var s' := Do(s, step);
    OnwardGoesOn(s, u);
    ReferringShrinks(s, s', u);
    StepKeeps(s, step);
    if u in Referring(s') {
      StartWritesBehind(s', t, u);
    } else {
      StartWrites(s', t);
    }
    MayWriteBefore(s, step);
  }

  // ------------------------------------------------------------ the poll runs out

  lemma PolledOne(s: System, h: Handle)
    requires Invariant(s) && s.poll.Scanning? && h in s.poll.todo
    ensures var s' := Do(s, PollPanel(h, SleepIo(Sent, true)));
      s'.poll.Scanning? && s'.poll.todo == s.poll.todo - {h} && s'.tasks == s.tasks && s'.stopping == s.stopping
  {
  }

  lemma PollEnded(s: System)
    requires Invariant(s) && s.poll.Scanning? && s.poll.todo == {}
    ensures var s' := Do(s, EndPoll);
      !s'.poll.Scanning? && s'.tasks == s.tasks && s'.stopping == s.stopping
  {
  }

  lemma {:induction false} StartWritesInPoll(s: System, t: TaskId)
    requires Invariant(s) && s.stopping && t in s.tasks && s.tasks[t].Identify? && s.tasks[t].phase.Start?
    ensures MayWrite(s)
    decreases if s.poll.Scanning? then |s.poll.todo| else 0
  {
    if !s.poll.Scanning? {
      StartWrites(s, t);
    } else if s.poll.todo == {} {
      PollEnded(s);
      StepKeeps(s, EndPoll);
      StartWrites(Do(s, EndPoll), t);
      MayWriteBefore(s, EndPoll);
    } else {
      var h :| h in s.poll.todo;
      var step := PollPanel(h, SleepIo(Sent, true));
      PolledOne(s, h);
      StepKeeps(s, step);
      StartWritesInPoll(Do(s, step), t);
      MayWriteBefore(s, step);
    }
  }

  // --------------------------------------------------------------- the condition

  lemma ThreatWrites(s: System, t: TaskId)
    requires Invariant(s) && s.stopping && Threat(s, t)
    ensures MayWrite(s)
  {
    match s.tasks[t].phase
    case Start => StartWritesInPoll(s, t);
    case Found(_) => FoundWrites(s, t);
    case Locked(_) => LockedWrites(s, t);
    case _ => WriterWrites(s, t);
  }

  ghost predicate WritesLater(before: seq<Step>, later: seq<Step>, h: Handle) {
    NoIdentify(later) && TrafficOf(After(before + later), h) != TrafficOf(After(before), h)
  }

  /**
   Once the poll has reported complete, some later run without new identifications
   writes if and only if an identification in flight may still write.
   */
  lemma StopSafetyExactly(before: seq<Step>)
    requires After(before).complete
    ensures (exists later: seq<Step>, h: Handle :: WritesLater(before, later, h)) <==> !Harmless(After(before))
  {
    var s := After(before);
    InitialHolds();
    CompleteIsStopped(before);
    if Harmless(s) {
      forall later: seq<Step>, h: Handle | NoIdentify(later)
        ensures TrafficOf(After(before + later), h) == TrafficOf(s, h)
      {
        StopSafety(before, later, h);
      }
    } else {
      var t :| t in s.tasks && Threat(s, t);
      ThreatWrites(s, t);
      var later, h :| WritesOn(s, later, h);
      RunAppend(INITIAL, before, later);
      assert WritesLater(before, later, h);
    }
  }

  /** An identification has been asked for and has not looked its panel up. */
  function Asked(stopping: bool, poll: Poll, complete: bool): System {
    System(map[], map[], {}, stopping, map[0 := Identify(0, Start)], poll, complete)
  }

  lemma Asks()
    ensures Invariant(INITIAL) && Do(INITIAL, StartIdentify(0, 0)) == Asked(false, Idle, false)
  {
  }

  lemma Stops()
    ensures Invariant(Asked(false, Idle, false)) && Do(Asked(false, Idle, false), Stop) == Asked(true, Idle, false)
  {
  }

  lemma Scans()
    ensures Invariant(Asked(true, Idle, false))
    ensures Do(Asked(true, Idle, false), StartPoll) == Asked(true, Scanning({}, true), false)
  {
    var registry: map<PortName, Handle> := map[];
    assert registry.Values == {};
  }

  lemma EndsScan()
    ensures Invariant(Asked(true, Scanning({}, true), false))
    ensures Do(Asked(true, Scanning({}, true), false), EndPoll) == Asked(true, Scanned(true), false)
  {
  }

  lemma Reports()
    ensures Invariant(Asked(true, Scanned(true), false))
    ensures Do(Asked(true, Scanned(true), false), EndPoll) == Asked(true, Idle, true)
  {
  }

  lemma StepTo(s: System, step: Step, s': System, rest: seq<Step>, end: System)
    requires Invariant(s) && Do(s, step) == s' && Invariant(s') && Run(s', rest) == end
    ensures Run(s, [step] + rest) == end
  {
    RunCons(s, step, rest);
  }

  /** The shutdown of a daemon that was only asked for one identification. */
  function ShutdownRun(): seq<Step> {
    [StartIdentify(0, 0)] + ([Stop] + ([StartPoll] + ([EndPoll] + [EndPoll])))
  }

  lemma ShutdownEnds()
    ensures Invariant(Asked(true, Idle, false))
    ensures Run(Asked(true, Idle, false), [StartPoll] + ([EndPoll] + [EndPoll])) == Asked(true, Idle, true)
  {
    Reports();
    OneStepRun(Asked(true, Scanned(true), false), EndPoll);
    EndsScan();
    StepTo(Asked(true, Scanning({}, true), false), EndPoll, Asked(true, Scanned(true), false), [EndPoll],
           Asked(true, Idle, true));
    Scans();
    StepTo(Asked(true, Idle, false), StartPoll, Asked(true, Scanning({}, true), false), [EndPoll] + [EndPoll],
           Asked(true, Idle, true));
  }

  lemma ShutdownRuns()
    ensures After(ShutdownRun()) == Asked(true, Idle, true)
  {
    ShutdownEnds();
    Stops();
    StepTo(Asked(false, Idle, false), Stop, Asked(true, Idle, false), [StartPoll] + ([EndPoll] + [EndPoll]),
           Asked(true, Idle, true));
    Asks();
    StepTo(INITIAL, StartIdentify(0, 0), Asked(false, Idle, false), [Stop] + ([StartPoll] + ([EndPoll] + [EndPoll])),
           Asked(true, Idle, true));
  }

  lemma AskedIsThreat(s: System)
    requires s == Asked(true, Idle, true)
    ensures s.complete && !Harmless(s)
  {
    assert Threat(s, 0);
  }

  /**
   The condition is needed: asked for before the shutdown, an identification can
   write although the poll has reported complete.
   */
  lemma IdentificationMayWriteAfterShutdown()
    ensures exists before: seq<Step>, later: seq<Step>, h: Handle ::
      After(before).complete && WritesLater(before, later, h)
  {
    ShutdownRuns();
    AskedIsThreat(After(ShutdownRun()));
    StopSafetyExactly(ShutdownRun());
  }
}
