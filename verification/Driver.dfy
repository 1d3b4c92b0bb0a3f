/**
 The driver as a whole: routing rounds, routing jobs, identifications and the
 shutdown poll, interleaved in any order. Work done under a panel's lock between
 two accesses to shared state is one step; every access to the stop flag, the job
 set, the registry and the locks is a step of its own.
 */
module Driver {
  import opened Basics
  import opened Protocol
  import opened Firmware
  import opened Panel

  type PortName = nat
  type TaskId = nat
  /** A shared panel object: the registry and running tasks each keep a reference. */
  type Handle = nat

  datatype Phase =
    | Start                  // about to look the panel up
    | Found(handle: Handle)  // holds a reference, not the lock
    | Locked(handle: Handle)
    | Checked(handle: Handle)
    | Ready(handle: Handle)  // the port is open
    | Painting(handle: Handle)
    | Restoring(handle: Handle)
    | Leveling(handle: Handle)
    | Ending(handle: Handle)
    | Leaving(handle: Handle)
    | Done                   // the job name is still to be removed

  datatype Task =
    | Router(present: set<PortName>, routed: set<PortName>)
    | Job(port: PortName, level: Option<byte>, frame: Picture, phase: Phase)
    | Identify(port: PortName, phase: Phase)
  {
    predicate HasHandle() {
      !Router? && !phase.Start? && !phase.Done?
    }
    predicate Holds() {
      HasHandle() && !phase.Found?
    }
    /** The task has passed its checks and may write. */
    predicate Writer() {
      Holds() && !phase.Locked? && !phase.Leaving?
    }
    /** The task's name is in the job set on its account. */
    predicate Counted() {
      Job? && !phase.Leaving?
    }
  }

  datatype Cell = Cell(port: PortName, panel: PanelState, holder: Option<TaskId>)

  datatype Poll = Idle | Scanning(todo: set<Handle>, ok: bool) | Scanned(ok: bool)

  datatype System = System(
    heap: map<Handle, Cell>,
    registry: map<PortName, Handle>,
    jobs: set<PortName>,
    stopping: bool,
    tasks: map<TaskId, Task>,
    poll: Poll,
    complete: bool)

  const INITIAL := System(map[], map[], {}, false, map[], Idle, false)

  /** Everything outside the driver that one locked step may meet. */
  datatype Io = Io(
    now: int, later: int, open: OpenIo, write: Delivery, sleep: SleepIo,
    active: bool, flash: byte, bits: Bits, frame: Picture, level: Option<byte>)

  type Bits = s: seq<byte> | |s| == BITMAP witness seq(BITMAP, _ => 0)

  datatype Step =
    | StartRoute(task: TaskId, present: set<PortName>, routed: set<PortName>)
    | Evict(task: TaskId, port: PortName, sleep: SleepIo)
    | Spawn(task: TaskId, child: TaskId, port: PortName, level: Option<byte>, frame: Picture)
    | EndRoute(task: TaskId)
    | StartIdentify(task: TaskId, port: PortName)
    | Lookup(task: TaskId, present: set<PortName>, unused: Handle, now: int)
    | TryLock(task: TaskId)
    | Work(task: TaskId, io: Io)
    | Finish(task: TaskId)
    | Stop
    | StartPoll
    | PollPanel(handle: Handle, sleep: SleepIo)
    | EndPoll

  // --------------------------------------------------- work under a panel's lock

  datatype Worked = Worked(panel: PanelState, phase: Phase)

  function JobWork(task: Task, p: PanelState, stopping: bool, io: Io): Worked
    requires task.Job? && task.Holds()
    requires task.phase.Painting? ==> p.conn.Some? && task.level.Some?
  {
    var h := task.phase.handle;
    match task.phase
    case Locked(_) =>
      if !Panel.Ready(p, io.now) || stopping then Worked(p, Leaving(h)) else Worked(p, Checked(h))
    case Checked(_) =>
      var s := OpenStage(p, task.level, io.now, io.open);
      Worked(s.panel, if s.goOn then Phase.Ready(h) else Ending(h))
    case Ready(_) =>
      var s := BranchStage(p, task.level, stopping, io.sleep);
      Worked(s.panel, if s.goOn then Painting(h) else Ending(h))
    case Painting(_) =>
      Worked(PaintStage(p, task.level.value, task.frame, io.now, io.later, io.write), Ending(h))
    case Ending(_) => Worked(EndStage(p, stopping, io.sleep), Done)
    case _ => Worked(p, Done)
  }

  function IdentifyWork(task: Task, p: PanelState, stopping: bool, io: Io): Worked
    requires task.Identify? && task.Holds()
    requires task.phase.Ready? || task.phase.Restoring? || task.phase.Leveling? ==> p.conn.Some?
  {
    var h := task.phase.handle;
    match task.phase
    case Locked(_) =>
      if !Panel.Ready(p, io.now) then Worked(p, Leaving(h)) else Worked(p, Checked(h))
    case Checked(_) =>
      var s := WakeStage(p, io.now, io.write, io.open);
      Worked(s.panel, if s.goOn then Phase.Ready(h) else Ending(h))
    case Ready(_) =>
      var s := FlashStage(p, io.active, io.flash, io.bits, io.now, io.write);
      Worked(s.panel, if s.goOn then Restoring(h) else Ending(h))
    case Restoring(_) =>
      var s := SendStage(p, GreyscaleCommands(io.frame), io.now, io.write);
      Worked(s.panel, if s.goOn then Leveling(h) else Ending(h))
    case Leveling(_) => Worked(LevelStage(p, io.level, io.now, io.write, io.sleep), Ending(h))
    case Ending(_) => Worked(IdentifyEnd(p, stopping, io.sleep), Done)
    case _ => Worked(p, Done)
  }

  /** What the lock holder may rely on between its steps. */
  ghost predicate Fits(task: Task, p: PanelState)
    requires task.Holds()
  {
    && Sane(p)
    && (task.Job? ==>
          && Coherent(p)
          && (task.phase.Checked? ==> !p.needsReplug)
          && (task.phase.Ready? || task.phase.Painting? ==> p.conn.Some?)
          && (task.phase.Painting? ==> task.level.Some?)
          && !task.phase.Restoring? && !task.phase.Leveling?)
    && (task.Identify? ==>
          && (task.phase.Locked? || task.phase.Checked? || task.phase.Leaving? ==> Coherent(p))
          && (task.phase.Checked? ==> !p.needsReplug)
          && (task.phase.Ready? || task.phase.Restoring? || task.phase.Leveling? ==> p.conn.Some?)
          && !task.phase.Painting?)
  }

  function WorkOn(task: Task, p: PanelState, stopping: bool, io: Io): Worked
    requires task.Holds() && Fits(task, p)
  {
    if task.Job? then JobWork(task, p, stopping, io) else IdentifyWork(task, p, stopping, io)
  }

  /** What `WorkOn` leaves behind: a sound free panel, or one the next phase can rely on. */
  ghost predicate LeftFit(task: Task, w: Worked)
    requires task.Holds()
  {
    && (w.phase.Done? ==> Sound(w.panel))
    && (!w.phase.Done? ==>
          task.(phase := w.phase).Holds() && w.phase.handle == task.phase.handle
          && Fits(task.(phase := w.phase), w.panel))
  }

  lemma JobWorkFits(task: Task, p: PanelState, stopping: bool, io: Io)
    requires task.Job? && task.Holds() && Fits(task, p)
    ensures LeftFit(task, JobWork(task, p, stopping, io))
  {
    match task.phase
    case Checked(_) => OpenStageIsSound(p, task.level, io.now, io.open);
    case Ready(_) => BranchStageIsSound(p, task.level, stopping, io.sleep);
    case Painting(_) => PaintStageIsSound(p, task.level.value, task.frame, io.now, io.later, io.write);
    case Ending(_) => EndStageIsSound(p, stopping, io.sleep);
    case _ =>
  }

  lemma IdentifyWorkFits(task: Task, p: PanelState, stopping: bool, io: Io)
    requires task.Identify? && task.Holds() && Fits(task, p)
    ensures LeftFit(task, IdentifyWork(task, p, stopping, io))
  {
    match task.phase
    case Checked(_) => WakeStageIsSound(p, io.now, io.write, io.open);
    case Ready(_) => FlashStageIsSane(p, io.active, io.flash, io.bits, io.now, io.write);
    case Restoring(_) => RestoreStageIsSane(p, io.frame, io.now, io.write);
    case Leveling(_) => LevelStageIsSane(p, io.level, io.now, io.write, io.sleep);
    case Ending(_) => IdentifyEndIsSound(p, stopping, io.sleep);
    case _ =>
  }

  lemma WorkFits(task: Task, p: PanelState, stopping: bool, io: Io)
    requires task.Holds() && Fits(task, p)
    ensures LeftFit(task, WorkOn(task, p, stopping, io))
  {
    if task.Job? {
      JobWorkFits(task, p, stopping, io);
    } else {
      IdentifyWorkFits(task, p, stopping, io);
    }
  }

  // ------------------------------------------------------------------- the steps

  predicate Referenced(s: System, h: Handle) {
    exists t :: t in s.tasks && s.tasks[t].HasHandle() && s.tasks[t].phase.handle == h
  }

  /** Entries that survive a lookup: present on the bus, or in use by a task. */
  function Retained(s: System, present: set<PortName>): map<PortName, Handle> {
    map q | q in s.registry && (q in present || Referenced(s, s.registry[q])) :: s.registry[q]
  }

  /** The task gives up before it holds a lock. */
  function GiveUp(s: System, t: TaskId): System
    requires t in s.tasks && !s.tasks[t].Router?
  {
    match s.tasks[t]
    case Job(port, level, frame, _) => s.(tasks := s.tasks[t := Job(port, level, frame, Done)])
    case _ => s.(tasks := s.tasks - {t})
  }

  predicate Enabled(s: System, step: Step) {
    match step
    case StartRoute(t, _, _) => t !in s.tasks && !s.stopping
    case Evict(t, port, _) =>
      t in s.tasks && s.tasks[t].Router? && port !in s.tasks[t].routed && port in s.registry
      && !s.poll.Scanning?
    case Spawn(t, child, port, _, _) =>
      t in s.tasks && s.tasks[t].Router? && port in s.tasks[t].routed && child !in s.tasks
    case EndRoute(t) => t in s.tasks && s.tasks[t].Router?
    case StartIdentify(t, _) => t !in s.tasks
    case Lookup(t, _, unused, _) =>
      t in s.tasks && !s.tasks[t].Router? && s.tasks[t].phase.Start?
      && unused !in s.heap && !s.poll.Scanning?
    case TryLock(t) => t in s.tasks && !s.tasks[t].Router? && s.tasks[t].phase.Found?
    case Work(t, _) => t in s.tasks && s.tasks[t].Holds()
    case Finish(t) => t in s.tasks && !s.tasks[t].Router? && s.tasks[t].phase.Done?
    case Stop => true
    case StartPoll => s.stopping && !s.poll.Scanning?
    case PollPanel(h, _) => s.poll.Scanning? && h in s.poll.todo
    case EndPoll => s.poll.Scanned? || (s.poll.Scanning? && s.poll.todo == {})
  }

  function DoEvict(s: System, t: TaskId, port: PortName, sleep: SleepIo): (s': System)
    requires Structured(s) && Enabled(s, Evict(t, port, sleep))
    ensures s'.registry == s.registry || s'.registry == s.registry - {port}
    ensures forall h :: h in s'.heap ==> h in s.heap && s'.heap[h].port == s.heap[h].port
  {
    var h := s.registry[port];
    var cell := s.heap[h];
    if cell.holder.Some? then s
    else if cell.panel.needsReplug && port in s.tasks[t].present then s
    else s.(heap := s.heap[h := cell.(panel := SleepPanel(cell.panel, sleep))], registry := s.registry - {port})
  }

  function DoLookup(s: System, t: TaskId, present: set<PortName>, unused: Handle, now: int): System
    requires Enabled(s, Lookup(t, present, unused, now))
  {
    var port := s.tasks[t].port;
    var kept := s.(registry := Retained(s, present));
    if port in kept.registry then
      kept.(tasks := s.tasks[t := s.tasks[t].(phase := Found(kept.registry[port]))])
    else if |kept.registry| >= 2 then GiveUp(kept, t)
    else
      kept.(heap := s.heap[unused := Cell(port, Panel.Fresh(now), None)],
            registry := kept.registry[port := unused],
            tasks := s.tasks[t := s.tasks[t].(phase := Found(unused))])
  }

  function DoTryLock(s: System, t: TaskId): (s': System)
    requires Structured(s) && Enabled(s, TryLock(t))
    ensures s'.registry == s.registry
    ensures forall h :: h in s'.heap ==> h in s.heap && s'.heap[h].port == s.heap[h].port
  {
    var h := s.tasks[t].phase.handle;
    if s.heap[h].holder.Some? then GiveUp(s, t)
    else s.(heap := s.heap[h := s.heap[h].(holder := Some(t))],
            tasks := s.tasks[t := s.tasks[t].(phase := Locked(h))])
  }

  function DoWork(s: System, t: TaskId, io: Io): System
    requires Invariant(s) && Enabled(s, Work(t, io))
  {
    var task := s.tasks[t];
    var h := task.phase.handle;
    var w := WorkOn(task, s.heap[h].panel, s.stopping, io);
    if !w.phase.Done? then
      // A job that fails its check leaves the job set before it unlocks.
      s.(heap := s.heap[h := s.heap[h].(panel := w.panel)],
         tasks := s.tasks[t := task.(phase := w.phase)],
         jobs := if task.Job? && w.phase.Leaving? then s.jobs - {task.port} else s.jobs)
    else
      s.(heap := s.heap[h := Cell(s.heap[h].port, w.panel, None)],
         tasks := if task.Counted() then s.tasks[t := task.(phase := Done)] else s.tasks - {t})
  }

  function DoPollPanel(s: System, h: Handle, sleep: SleepIo): (s': System)
    requires Structured(s) && Enabled(s, PollPanel(h, sleep))
    ensures s'.registry == s.registry
    ensures forall h :: h in s'.heap ==> h in s.heap && s'.heap[h].port == s.heap[h].port
  {
    var poll := s.poll.(todo := s.poll.todo - {h});
    var cell := s.heap[h];
    if cell.holder.Some? then s.(poll := poll.(ok := false))
    else s.(heap := s.heap[h := cell.(panel := SleepPanel(cell.panel, sleep))], poll := poll)
  }

  /** Steps that only start, end or signal something. */
  function DoPlain(s: System, step: Step): (s': System)
    requires Enabled(s, step)
    ensures s'.heap == s.heap && s'.registry == s.registry
    ensures forall t :: t in s.tasks && s.tasks[t].HasHandle() ==> t in s'.tasks && s'.tasks[t] == s.tasks[t]
  {
    match step
    case StartRoute(t, present, routed) => s.(tasks := s.tasks[t := Router(present, routed)])
    case Spawn(_, child, port, level, frame) =>
      if port in s.jobs then s
      else s.(jobs := s.jobs + {port}, tasks := s.tasks[child := Job(port, level, frame, Start)])
    case EndRoute(t) => s.(tasks := s.tasks - {t})
    case StartIdentify(t, port) => s.(tasks := s.tasks[t := Identify(port, Start)])
    case Finish(t) => s.(jobs := s.jobs - {s.tasks[t].port}, tasks := s.tasks - {t})
    case Stop => s.(stopping := true)
    case StartPoll => s.(poll := Scanning(s.registry.Values, true))
    case EndPoll =>
      if s.poll.Scanning? then s.(poll := Scanned(s.poll.ok))
      else s.(poll := Idle, complete := s.complete || (s.poll.ok && s.jobs == {}))
    case _ => s
  }

  /** One step of the driver; a step that is not enabled does nothing. */
  function Do(s: System, step: Step): System
    requires Invariant(s)
  {
    if !Enabled(s, step) then s
    else
      match step
      case Evict(t, port, sleep) => DoEvict(s, t, port, sleep)
      case Lookup(t, present, unused, now) => DoLookup(s, t, present, unused, now)
      case TryLock(t) => DoTryLock(s, t)
      case Work(t, io) => DoWork(s, t, io)
      case PollPanel(h, sleep) => DoPollPanel(s, h, sleep)
      case _ => DoPlain(s, step)
  }

  // --------------------------------------------------------------- the invariant

  ghost predicate Structured(s: System) {
    && (forall p :: p in s.registry ==> s.registry[p] in s.heap && s.heap[s.registry[p]].port == p)
    && (forall t :: t in s.tasks && s.tasks[t].HasHandle() ==>
          s.tasks[t].phase.handle in s.heap && s.heap[s.tasks[t].phase.handle].port == s.tasks[t].port)
    && (forall t :: t in s.tasks && s.tasks[t].Holds() ==> s.heap[s.tasks[t].phase.handle].holder == Some(t))
    && (forall h :: h in s.heap && s.heap[h].holder.Some? ==> HeldBy(s, h, s.heap[h].holder.value))
    && (forall t :: t in s.tasks && s.tasks[t].Counted() ==> s.tasks[t].port in s.jobs)
    && (forall t, u :: t in s.tasks && u in s.tasks && t != u && s.tasks[t].Counted() && s.tasks[u].Counted() ==>
          s.tasks[t].port != s.tasks[u].port)
    && (forall t :: t in s.tasks && s.tasks[t].Identify? ==> !s.tasks[t].phase.Done?)
    && (s.poll.Scanning? ==> s.stopping && s.poll.todo <= s.registry.Values)
  }

  predicate HeldBy(s: System, h: Handle, t: TaskId) {
    t in s.tasks && s.tasks[t].Holds() && s.tasks[t].phase.handle == h
  }

  /** A free panel is sound; a locked one is what its holder relies on. */
  ghost predicate CellFits(tasks: map<TaskId, Task>, cell: Cell) {
    match cell.holder
    case None => Sound(cell.panel)
    case Some(t) => t in tasks && tasks[t].Holds() && Fits(tasks[t], cell.panel)
  }

  ghost predicate PanelsFit(s: System) {
    forall h :: h in s.heap ==> CellFits(s.tasks, s.heap[h])
  }

  ghost predicate Invariant(s: System) {
    Structured(s) && PanelsFit(s)
  }

  /** Outcome of task t's step on the panel it refers to. */
  function Put(s: System, t: TaskId, h: Handle, cell: Cell, tasks: map<TaskId, Task>, jobs: set<PortName>): System {
    s.(heap := s.heap[h := cell], tasks := tasks, jobs := jobs)
  }

  /** The task moved on with the same panel, or is gone. */
  predicate MovedOn(s: System, t: TaskId, h: Handle, cell: Cell, tasks: map<TaskId, Task>, jobs: set<PortName>)
    requires t in s.tasks && s.tasks[t].HasHandle() && h in s.heap
  {
    var task := s.tasks[t];
    && h == task.phase.handle && cell.port == task.port
    && (s.heap[h].holder == None || s.heap[h].holder == Some(t))
    && if t in tasks then
         var task' := tasks[t];
         && tasks == s.tasks[t := task'] && task'.Job? == task.Job? && !task'.Router? && task'.port == task.port
         && (task'.HasHandle() ==> task'.phase.handle == h)
         && (task'.Identify? ==> !task'.phase.Done?)
         && cell.holder == (if task'.Holds() then Some(t) else None)
         && jobs == (if task.Counted() && !task'.Counted() then s.jobs - {task.port} else s.jobs)
         && (task'.Counted() ==> task.Counted())
       else
         tasks == s.tasks - {t} && cell.holder == None && jobs == s.jobs && !task.Counted()
  }

  lemma PutKeepsStructure(s: System, t: TaskId, h: Handle, cell: Cell, tasks: map<TaskId, Task>, jobs: set<PortName>)
    requires Structured(s) && t in s.tasks && s.tasks[t].HasHandle() && h in s.heap
    requires MovedOn(s, t, h, cell, tasks, jobs)
    ensures Structured(Put(s, t, h, cell, tasks, jobs))
  {
    var s' := Put(s, t, h, cell, tasks, jobs);
    assert s.heap[h].port == s.tasks[t].port;
    forall g | g in s'.heap && s'.heap[g].holder.Some?
      ensures HeldBy(s', g, s'.heap[g].holder.value)
    {
      if g != h { assert HeldBy(s, g, s.heap[g].holder.value); }
    }
    forall u | u in s'.tasks && s'.tasks[u].Holds()
      ensures s'.heap[s'.tasks[u].phase.handle].holder == Some(u)
    {
      if u != t { assert s.heap[s.tasks[u].phase.handle].holder == Some(u); }
    }
  }

  lemma PutKeepsPanels(s: System, t: TaskId, h: Handle, cell: Cell, tasks: map<TaskId, Task>, jobs: set<PortName>)
    requires Structured(s) && PanelsFit(s) && t in s.tasks && s.tasks[t].HasHandle() && h in s.heap
    requires MovedOn(s, t, h, cell, tasks, jobs) && CellFits(tasks, cell)
    ensures PanelsFit(Put(s, t, h, cell, tasks, jobs))
  {
    forall g | g in s.heap && g != h ensures CellFits(tasks, s.heap[g]) {
      assert CellFits(s.tasks, s.heap[g]);
      if s.heap[g].holder.Some? {
        assert HeldBy(s, g, s.heap[g].holder.value);
        assert s.heap[g].holder.value != t;
      }
    }
  }

  lemma FreshIsSound(now: int)
    ensures Sound(Panel.Fresh(now))
  {
  }

  /** A free panel changes into another sound one. */
  lemma ReplaceKeeps(s: System, h: Handle, panel: PanelState)
    requires Invariant(s) && h in s.heap && s.heap[h].holder.None? && Sound(panel)
    ensures Invariant(s.(heap := s.heap[h := s.heap[h].(panel := panel)]))
  {
    var s' := s.(heap := s.heap[h := s.heap[h].(panel := panel)]);
    forall g | g in s'.heap && s'.heap[g].holder.Some?
      ensures HeldBy(s', g, s'.heap[g].holder.value)
    {
      assert HeldBy(s, g, s.heap[g].holder.value);
    }
    forall g | g in s'.heap ensures CellFits(s'.tasks, s'.heap[g]) {
      assert CellFits(s.tasks, s.heap[g]);
    }
  }

  lemma SameCellsKeep(s: System, s': System)
    requires Invariant(s) && s'.heap == s.heap
    requires forall t :: t in s.tasks && s.tasks[t].Holds() ==> t in s'.tasks && s'.tasks[t] == s.tasks[t]
    ensures PanelsFit(s')
    ensures forall h :: h in s'.heap && s'.heap[h].holder.Some? ==> HeldBy(s', h, s'.heap[h].holder.value)
  {
    forall g | g in s'.heap ensures CellFits(s'.tasks, s'.heap[g]) {
      assert CellFits(s.tasks, s.heap[g]);
    }
    forall h | h in s'.heap && s'.heap[h].holder.Some? ensures HeldBy(s', h, s'.heap[h].holder.value) {
      assert HeldBy(s, h, s.heap[h].holder.value);
    }
  }

  lemma EvictKeeps(s: System, t: TaskId, port: PortName, sleep: SleepIo)
    requires Invariant(s) && Enabled(s, Evict(t, port, sleep))
    ensures Invariant(DoEvict(s, t, port, sleep))
  {
    var h := s.registry[port];
    var panel := s.heap[h].panel;
    if s.heap[h].holder.None? {
      assert CellFits(s.tasks, s.heap[h]);
      SleepIsSound(panel, sleep);
      ReplaceKeeps(s, h, SleepPanel(panel, sleep));
      var s1 := s.(heap := s.heap[h := s.heap[h].(panel := SleepPanel(panel, sleep))]);
      SameCellsKeep(s1, s1.(registry := s.registry - {port}));
    }
  }

  /** A task without a lock changes or goes; what the job set covers stays covered. */
  lemma TaskKeeps(s: System, t: TaskId, tasks: map<TaskId, Task>, jobs: set<PortName>)
    requires Invariant(s) && (t in s.tasks ==> !s.tasks[t].Holds())
    requires tasks == s.tasks - {t} || (t in tasks && tasks == s.tasks[t := tasks[t]])
    requires t in tasks ==>
      && !tasks[t].Holds()
      && (tasks[t].HasHandle() ==>
            tasks[t].phase.handle in s.heap && s.heap[tasks[t].phase.handle].port == tasks[t].port)
      && (tasks[t].Identify? ==> !tasks[t].phase.Done?)
      && (tasks[t].Counted() ==> tasks[t].port in jobs)
      && forall u :: u in s.tasks && u != t && s.tasks[u].Counted() && tasks[t].Counted() ==>
           s.tasks[u].port != tasks[t].port
    requires forall u :: u in s.tasks && u != t && s.tasks[u].Counted() ==> s.tasks[u].port in jobs
    ensures Invariant(s.(tasks := tasks, jobs := jobs))
  {
    SameCellsKeep(s, s.(tasks := tasks, jobs := jobs));
  }

  lemma GiveUpKeeps(s: System, t: TaskId)
    requires Invariant(s) && t in s.tasks && !s.tasks[t].Router? && !s.tasks[t].Holds()
    requires s.tasks[t].phase.Start? || s.tasks[t].phase.Found?
    ensures Invariant(GiveUp(s, t))
  {
    TaskKeeps(s, t, GiveUp(s, t).tasks, s.jobs);
    assert GiveUp(s, t) == s.(tasks := GiveUp(s, t).tasks, jobs := s.jobs);
  }

  lemma RetainKeeps(s: System, present: set<PortName>)
    requires Invariant(s) && !s.poll.Scanning?
    ensures Invariant(s.(registry := Retained(s, present)))
  {
    SameCellsKeep(s, s.(registry := Retained(s, present)));
  }

  lemma AllocateKeeps(s: System, port: PortName, h: Handle, now: int)
    requires Invariant(s) && h !in s.heap && !s.poll.Scanning?
    ensures Invariant(s.(heap := s.heap[h := Cell(port, Panel.Fresh(now), None)],
                         registry := s.registry[port := h]))
  {
    FreshIsSound(now);
    var s' := s.(heap := s.heap[h := Cell(port, Panel.Fresh(now), None)], registry := s.registry[port := h]);
    forall g | g in s'.heap ensures CellFits(s'.tasks, s'.heap[g]) {
      if g != h { assert CellFits(s.tasks, s.heap[g]); }
    }
    forall g | g in s'.heap && s'.heap[g].holder.Some? ensures HeldBy(s', g, s'.heap[g].holder.value) {
      assert HeldBy(s, g, s.heap[g].holder.value);
    }
  }

  lemma FindKeeps(s: System, t: TaskId, h: Handle)
    requires Invariant(s) && t in s.tasks && !s.tasks[t].Router? && s.tasks[t].phase.Start?
    requires h in s.heap && s.heap[h].port == s.tasks[t].port
    ensures Invariant(s.(tasks := s.tasks[t := s.tasks[t].(phase := Found(h))]))
  {
    TaskKeeps(s, t, s.tasks[t := s.tasks[t].(phase := Found(h))], s.jobs);
  }

  lemma LookupKeeps(s: System, t: TaskId, present: set<PortName>, unused: Handle, now: int)
    requires Invariant(s) && Enabled(s, Lookup(t, present, unused, now))
    ensures Invariant(DoLookup(s, t, present, unused, now))
  {
    var port := s.tasks[t].port;
    RetainKeeps(s, present);
    var kept := s.(registry := Retained(s, present));
    if port in kept.registry {
      FindKeeps(kept, t, kept.registry[port]);
    } else if |kept.registry| >= 2 {
      GiveUpKeeps(kept, t);
    } else {
      AllocateKeeps(kept, port, unused, now);
      var grown := kept.(heap := s.heap[unused := Cell(port, Panel.Fresh(now), None)],
                         registry := kept.registry[port := unused]);
      FindKeeps(grown, t, unused);
    }
  }

  lemma TryLockKeeps(s: System, t: TaskId)
    requires Invariant(s) && Enabled(s, TryLock(t))
    ensures Invariant(DoTryLock(s, t))
  {
    var h := s.tasks[t].phase.handle;
    if s.heap[h].holder.Some? {
      GiveUpKeeps(s, t);
    } else {
      var cell := s.heap[h].(holder := Some(t));
      var tasks := s.tasks[t := s.tasks[t].(phase := Locked(h))];
      assert CellFits(s.tasks, s.heap[h]);
      assert Put(s, t, h, cell, tasks, s.jobs) == DoTryLock(s, t);
      PutKeepsStructure(s, t, h, cell, tasks, s.jobs);
      PutKeepsPanels(s, t, h, cell, tasks, s.jobs);
    }
  }

  lemma WorkKeeps(s: System, t: TaskId, io: Io)
    requires Invariant(s) && Enabled(s, Work(t, io))
    ensures Invariant(DoWork(s, t, io))
  {
    var h := s.tasks[t].phase.handle;
    var s' := DoWork(s, t, io);
    WorkMovesOn(s, t, io);
    WorkLeavesFit(s, t, io);
    assert s' == Put(s, t, h, s'.heap[h], s'.tasks, s'.jobs);
    PutKeepsStructure(s, t, h, s'.heap[h], s'.tasks, s'.jobs);
    PutKeepsPanels(s, t, h, s'.heap[h], s'.tasks, s'.jobs);
  }

  lemma WorkMovesOn(s: System, t: TaskId, io: Io)
    requires Invariant(s) && Enabled(s, Work(t, io))
    ensures var h := s.tasks[t].phase.handle;
      var s' := DoWork(s, t, io);
      MovedOn(s, t, h, s'.heap[h], s'.tasks, s'.jobs)
  {
    var task := s.tasks[t];
    var p := s.heap[task.phase.handle].panel;
    assert CellFits(s.tasks, s.heap[task.phase.handle]);
    WorkFits(task, p, s.stopping, io);
  }

  lemma WorkLeavesFit(s: System, t: TaskId, io: Io)
    requires Invariant(s) && Enabled(s, Work(t, io))
    ensures var s' := DoWork(s, t, io);
      CellFits(s'.tasks, s'.heap[s.tasks[t].phase.handle])
  {
    var task := s.tasks[t];
    var p := s.heap[task.phase.handle].panel;
    assert CellFits(s.tasks, s.heap[task.phase.handle]);
    WorkFits(task, p, s.stopping, io);
  }

  lemma PollPanelKeeps(s: System, h: Handle, sleep: SleepIo)
    requires Invariant(s) && Enabled(s, PollPanel(h, sleep))
    ensures Invariant(DoPollPanel(s, h, sleep))
  {
    var panel := s.heap[h].panel;
    if s.heap[h].holder.None? {
      assert CellFits(s.tasks, s.heap[h]);
      SleepIsSound(panel, sleep);
      ReplaceKeeps(s, h, SleepPanel(panel, sleep));
      var s1 := s.(heap := s.heap[h := s.heap[h].(panel := SleepPanel(panel, sleep))]);
      SameCellsKeep(s1, DoPollPanel(s, h, sleep));
    } else {
      SameCellsKeep(s, DoPollPanel(s, h, sleep));
    }
  }

  lemma RoundKeeps(s: System, step: Step)
    requires Invariant(s) && Enabled(s, step)
    requires step.StartRoute? || step.EndRoute? || step.StartIdentify? || step.Spawn? || step.Finish?
    ensures Invariant(Do(s, step))
  {
    var s' := Do(s, step);
    var t := if step.Spawn? then step.child else step.task;
    if s' != s {
      TaskKeeps(s, t, s'.tasks, s'.jobs);
      assert s' == s.(tasks := s'.tasks, jobs := s'.jobs);
    }
  }

  lemma SignalKeeps(s: System, step: Step)
    requires Invariant(s) && Enabled(s, step)
    requires step.Stop? || step.StartPoll? || step.EndPoll?
    ensures Invariant(Do(s, step))
  {
    SameCellsKeep(s, Do(s, step));
  }

  /** Every step of every task keeps the invariant. */
  lemma StepKeeps(s: System, step: Step)
    requires Invariant(s)
    ensures Invariant(Do(s, step))
  {
    if Enabled(s, step) {
      match step
      case Evict(t, port, sleep) => EvictKeeps(s, t, port, sleep);
      case Lookup(t, present, unused, now) => LookupKeeps(s, t, present, unused, now);
      case TryLock(t) => TryLockKeeps(s, t);
      case Work(t, io) => WorkKeeps(s, t, io);
      case PollPanel(h, sleep) => PollPanelKeeps(s, h, sleep);
      case Stop => SignalKeeps(s, step);
      case StartPoll => SignalKeeps(s, step);
      case EndPoll => SignalKeeps(s, step);
      case _ => RoundKeeps(s, step);
    }
  }
}
