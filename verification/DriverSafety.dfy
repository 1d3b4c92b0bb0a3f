/** What holds over every run of the driver. */
module DriverSafety {
  import opened Basics
  import opened Protocol
  import opened Firmware
  import opened Panel
  import opened Driver
  import opened PanelFlags
  import opened PanelSleep

  lemma InitialHolds()
    ensures Invariant(INITIAL)
  {
  }

  function Run(s: System, steps: seq<Step>): (s': System)
    requires Invariant(s)
    ensures Invariant(s')
    decreases |steps|
  {
    if steps == [] then s
    else
      StepKeeps(s, steps[0]);
      Run(Do(s, steps[0]), steps[1..])
  }

  lemma {:induction false} RunAppend(s: System, a: seq<Step>, b: seq<Step>)
    requires Invariant(s)
    ensures Run(s, a + b) == Run(Run(s, a), b)
    decreases |a|
  {
    if a == [] {
      assert a + b == b;
    } else {
      StepKeeps(s, a[0]);
      assert (a + b)[0] == a[0] && (a + b)[1..] == a[1..] + b;
      RunAppend(Do(s, a[0]), a[1..], b);
    }
  }

  /** A state some interleaving leads to. */
  function After(steps: seq<Step>): (s: System)
    ensures Invariant(s)
  {
    InitialHolds();
    Run(INITIAL, steps)
  }

  // ---------------------------------------------------------- mutual exclusion

  /** After any interleaving, no panel is worked on by two tasks, and no port by two routing jobs. */
  lemma OneWriterPerPanel(steps: seq<Step>, t: TaskId, u: TaskId)
    requires t in After(steps).tasks && u in After(steps).tasks && t != u
    ensures var t', u' := After(steps).tasks[t], After(steps).tasks[u];
      && (t'.Holds() && u'.Holds() ==> t'.phase.handle != u'.phase.handle)
      && (t'.Counted() && u'.Counted() ==> t'.port != u'.port)
  {
  }

  lemma {:induction false} SubsetSize<T>(a: set<T>, b: set<T>)
    requires a <= b
    ensures |a| <= |b|
    decreases b
  {
    if x :| x in b && x !in a {
      SubsetSize(a, b - {x});
    } else {
      assert a == b;
    }
  }

  lemma MapSize<K, V>(m: map<K, V>)
    ensures |m| == |m.Keys|
  {
  }

  lemma LookupIsBounded(s: System, t: TaskId, present: set<PortName>, unused: Handle, now: int)
    requires Enabled(s, Lookup(t, present, unused, now)) && |s.registry| <= 2
    ensures |DoLookup(s, t, present, unused, now).registry| <= 2
  {
    var kept := Retained(s, present);
    MapSize(kept);
    MapSize(s.registry);
    SubsetSize(kept.Keys, s.registry.Keys);
    var port := s.tasks[t].port;
    if port !in kept && |kept| < 2 {
      MapSize(kept[port := unused]);
      assert kept[port := unused].Keys == kept.Keys + {port};
    }
  }

  lemma StepIsBounded(s: System, step: Step)
    requires Invariant(s) && |s.registry| <= 2
    ensures |Do(s, step).registry| <= 2
  {
    if Enabled(s, step) {
      match step
      case Lookup(t, present, unused, now) => LookupIsBounded(s, t, present, unused, now);
      case Evict(t, port, sleep) =>
        var left := DoEvict(s, t, port, sleep).registry;
        MapSize(left);
        MapSize(s.registry);
        SubsetSize(left.Keys, s.registry.Keys);
      case _ =>
    }
  }

  lemma {:induction false} RunIsBounded(s: System, steps: seq<Step>)
    requires Invariant(s) && |s.registry| <= 2
    ensures |Run(s, steps).registry| <= 2
    decreases |steps|
  {
    if steps != [] {
      StepKeeps(s, steps[0]);
      StepIsBounded(s, steps[0]);
      RunIsBounded(Do(s, steps[0]), steps[1..]);
    }
  }

  /** However many ports come and go, at most two panels are ever retained. */
  lemma AtMostTwoPanels(steps: seq<Step>)
    ensures |After(steps).registry| <= 2
  {
    InitialHolds();
    RunIsBounded(INITIAL, steps);
  }

  /** A lookup registers nothing but its own port, and keeps the rest of what is retained. */
  lemma LookupRegisters(s: System, t: TaskId, present: set<PortName>, unused: Handle, now: int)
    requires Enabled(s, Lookup(t, present, unused, now))
    ensures var kept, after := Retained(s, present), DoLookup(s, t, present, unused, now).registry;
      after == kept || after == kept[s.tasks[t].port := unused]
  {
  }

  /** What a lookup keeps of another port: its panel if the port is on the bus or a task refers to the panel. */
  lemma LookupKeepsUsed(s: System, t: TaskId, present: set<PortName>, unused: Handle, now: int, q: PortName)
    requires Invariant(s) && Enabled(s, Lookup(t, present, unused, now)) && q != s.tasks[t].port
    ensures var s' := Do(s, Lookup(t, present, unused, now));
      if q in s.registry && (q in present || Referenced(s, s.registry[q]))
      then q in s'.registry && s'.registry[q] == s.registry[q]
      else q !in s'.registry
  {
    LookupRegisters(s, t, present, unused, now);
  }

  /**
   What a lookup finds: the port's panel if it is kept; otherwise, if there is room, a
   new one, closed, free and ready at once, so that a quarantine ends with replugging.
   */
  lemma LookupFinds(s: System, t: TaskId, present: set<PortName>, unused: Handle, now: int)
    requires Invariant(s) && Enabled(s, Lookup(t, present, unused, now))
    ensures var s', port := Do(s, Lookup(t, present, unused, now)), s.tasks[t].port;
      if port in s.registry && (port in present || Referenced(s, s.registry[port]))
      then t in s'.tasks && s'.tasks[t].phase == Found(s.registry[port]) && s'.heap == s.heap
      else if |Retained(s, present)| < 2
      then
        && t in s'.tasks && s'.tasks[t].phase == Found(unused) && unused in s'.heap
        && s'.heap[unused].holder.None? && s'.heap[unused].port == port
        && s'.heap[unused].panel.conn.None? && Panel.Ready(s'.heap[unused].panel, now)
      else s'.heap == s.heap && (t in s'.tasks ==> s'.tasks[t].phase.Done?)
  {
  }

  // ----------------------------------------------------------- cache coherence

  /**
   Whenever a panel's lock is free, its port open and a frame remembered, the
   module behind the port, whatever it showed when the port was opened, is awake
   and shows exactly that frame at the remembered level.
   */
  lemma CacheCoherence(steps: seq<Step>, h: Handle, display: Display)
    requires h in After(steps).heap
    requires var cell := After(steps).heap[h];
      cell.holder.None? && cell.panel.conn.Some? && cell.panel.frame.Some?
    ensures var p := After(steps).heap[h].panel;
      var out := Feed(Device([], display), p.conn.value.log);
      && p.level.Some? && out.AtBoundary() && out.display.awake
      && out.display.shown == p.frame.value.pixels && out.display.level == p.level.value
  {
    var s := After(steps);
    assert CellFits(s.tasks, s.heap[h]);
    var p := s.heap[h].panel;
    assert WakesFrom(display, p.conn.value.log);
    assert ShowsFrom(display, p.conn.value.log, p.frame.value, p.level.value);
  }

  /** Each connection carried whole commands and then at most one cut command. */
  lemma LogsAreWholeCommandsAndOneCut(steps: seq<Step>, h: Handle, c: Conn)
    requires h in After(steps).heap
    requires var p := After(steps).heap[h].panel; c in p.closed || p.conn == Some(c)
    ensures AllWellFormed(Parse(c.log).commands)
    ensures c.log == EncodeAll(Parse(c.log).commands) + Parse(c.log).rest
    ensures Pending(Parse(c.log).rest)
    ensures !c.failed ==> Parse(c.log).rest == []
  {
    var s := After(steps);
    assert CellFits(s.tasks, s.heap[h]);
    ParseIsExact(c.log);
    assert Sane(s.heap[h].panel);
    if c in s.heap[h].panel.closed {
      assert LogSound(c);
    }
  }

  // ---------------------------------------------------------------- quarantine

  /** Everything ever written on a panel's connections. */
  function Traffic(p: PanelState): seq<Conn> {
    p.closed + if p.conn.Some? then [p.conn.value] else []
  }

  /** The step sees port `p` on the bus. */
  predicate KeepsOnBus(p: PortName, step: Step) {
    step.StartRoute? || step.Lookup? ==> p in step.present
  }

  ghost predicate AllKeepOnBus(p: PortName, steps: seq<Step>) {
    forall i :: 0 <= i < |steps| ==> KeepsOnBus(p, steps[i])
  }

  /** The step sees the port on the bus and leaves it routed. */
  predicate KeepsRouted(p: PortName, step: Step) {
    KeepsOnBus(p, step) && (step.StartRoute? ==> p in step.routed)
  }

  ghost predicate AllKeepRouted(p: PortName, steps: seq<Step>) {
    forall i :: 0 <= i < |steps| ==> KeepsRouted(p, steps[i])
  }

  /** Every routing round under way has the port routed. */
  ghost predicate Routed(s: System, p: PortName) {
    forall t :: t in s.tasks && s.tasks[t].Router? ==> p in s.tasks[t].routed
  }

  /**
   Every task that refers to a panel of port `p` refers to the registered one, and
   every routing round under way has seen the port on the bus.
   */
  ghost predicate Tracked(s: System, p: PortName) {
    && (forall t :: t in s.tasks && s.tasks[t].HasHandle() && s.tasks[t].port == p ==>
          p in s.registry && s.tasks[t].phase.handle == s.registry[p])
    && (forall t :: t in s.tasks && s.tasks[t].Router? ==> p in s.tasks[t].present)
  }

  /**
   A free panel is closed; a locked one is closed and its holder no writer, or its
   holder is an identification past its checks.
   */
  predicate Calm(s: System, h: Handle) {
    && h in s.heap
    && match s.heap[h].holder
       case None => s.heap[h].panel.conn.None?
       case Some(t) =>
         t in s.tasks && if s.tasks[t].Writer() then s.tasks[t].Identify? else s.heap[h].panel.conn.None?
  }

  /** What a step other than work leaves of a panel that exists. */
  ghost predicate Framed(s: System, s': System, h: Handle)
    requires h in s.heap
  {
    && h in s'.heap && s'.heap[h].port == s.heap[h].port
    && (s.heap[h].panel.conn.None? ==>
          && s'.heap[h].panel.conn.None? && s'.heap[h].panel.closed == s.heap[h].panel.closed
          && s'.heap[h].panel.needsReplug == s.heap[h].panel.needsReplug)
    && (Calm(s, h) && Structured(s) ==> Calm(s', h))
  }

  lemma EvictFrame(s: System, t: TaskId, port: PortName, sleep: SleepIo, h: Handle)
    requires Structured(s) && Enabled(s, Evict(t, port, sleep)) && h in s.heap
    ensures Framed(s, DoEvict(s, t, port, sleep), h)
    ensures forall g :: g in DoEvict(s, t, port, sleep).heap ==> g in s.heap
  {
  }

  lemma LookupCell(s: System, t: TaskId, present: set<PortName>, unused: Handle, now: int, h: Handle)
    requires Enabled(s, Lookup(t, present, unused, now)) && h in s.heap
    ensures var s' := DoLookup(s, t, present, unused, now);
      h in s'.heap && s'.heap[h] == s.heap[h]
  {
  }

  lemma LookupKeepsHolder(s: System, t: TaskId, present: set<PortName>, unused: Handle, now: int, u: TaskId)
    requires Enabled(s, Lookup(t, present, unused, now)) && u in s.tasks && s.tasks[u].Holds()
    ensures var s' := DoLookup(s, t, present, unused, now);
      u in s'.tasks && s'.tasks[u] == s.tasks[u]
  {
  }

  lemma LookupFrame(s: System, t: TaskId, present: set<PortName>, unused: Handle, now: int, h: Handle)
    requires Structured(s) && Enabled(s, Lookup(t, present, unused, now)) && h in s.heap
    ensures Framed(s, DoLookup(s, t, present, unused, now), h)
  {
    LookupCell(s, t, present, unused, now, h);
    if s.heap[h].holder.Some? {
      assert HeldBy(s, h, s.heap[h].holder.value);
      LookupKeepsHolder(s, t, present, unused, now, s.heap[h].holder.value);
    }
  }

  lemma TryLockFrame(s: System, t: TaskId, h: Handle)
    requires Structured(s) && Enabled(s, TryLock(t)) && h in s.heap
    ensures Framed(s, DoTryLock(s, t), h)
  {
    if s.heap[h].holder.Some? { assert HeldBy(s, h, s.heap[h].holder.value); }
  }

  lemma PollPanelFrame(s: System, g: Handle, sleep: SleepIo, h: Handle)
    requires Structured(s) && Enabled(s, PollPanel(g, sleep)) && h in s.heap
    ensures Framed(s, DoPollPanel(s, g, sleep), h)
  {
  }

  lemma PlainFrame(s: System, step: Step, h: Handle)
    requires Structured(s) && Enabled(s, step) && h in s.heap
    ensures Framed(s, DoPlain(s, step), h)
  {
    if s.heap[h].holder.Some? { assert HeldBy(s, h, s.heap[h].holder.value); }
  }

  /** Only the lock holder's work and closing commands touch a panel. */
  lemma PanelFrame(s: System, step: Step, h: Handle)
    requires Invariant(s) && h in s.heap && !step.Work?
    ensures Framed(s, Do(s, step), h)
  {
    if Enabled(s, step) {
      match step
      case Evict(t, port, sleep) => EvictFrame(s, t, port, sleep, h);
      case Lookup(t, present, unused, now) => LookupFrame(s, t, present, unused, now, h);
      case TryLock(t) => TryLockFrame(s, t, h);
      case PollPanel(g, sleep) => PollPanelFrame(s, g, sleep, h);
      case _ => PlainFrame(s, step, h);
    }
  }

  lemma WorkFrame(s: System, t: TaskId, io: Io, h: Handle)
    requires Invariant(s) && Enabled(s, Work(t, io)) && h in s.heap && h != s.tasks[t].phase.handle
    ensures h in DoWork(s, t, io).heap && DoWork(s, t, io).heap[h] == s.heap[h]
  {
  }

  /** A task of step `s'` that is not a task of `s` has no lock and is no old router. */
  predicate Settled(s: System, s': System, t: TaskId)
    requires t in s'.tasks
  {
    || (t in s.tasks && s'.tasks[t] == s.tasks[t])
    || (t in s.tasks && !s'.tasks[t].Router? && !s'.tasks[t].Writer() && s'.tasks[t].Identify? == s.tasks[t].Identify?)
  }

  lemma LookupTasks(s: System, t: TaskId, present: set<PortName>, unused: Handle, now: int, u: TaskId)
    requires Enabled(s, Lookup(t, present, unused, now)) && u in DoLookup(s, t, present, unused, now).tasks
    ensures Settled(s, DoLookup(s, t, present, unused, now), u)
  {
  }

  lemma TryLockTasks(s: System, t: TaskId, u: TaskId)
    requires Structured(s) && Enabled(s, TryLock(t)) && u in DoTryLock(s, t).tasks
    ensures Settled(s, DoTryLock(s, t), u)
  {
  }

  lemma LookupRetains(s: System, p: PortName, t: TaskId, present: set<PortName>, unused: Handle, now: int)
    requires Enabled(s, Lookup(t, present, unused, now)) && p in present && p in s.registry
    ensures var s' := DoLookup(s, t, present, unused, now);
      p in s'.registry && s'.registry[p] == s.registry[p]
  {
    assert p in Retained(s, present);
  }

  lemma LookupAllocates(s: System, t: TaskId, present: set<PortName>, unused: Handle, now: int, h: Handle)
    requires Enabled(s, Lookup(t, present, unused, now)) && h in DoLookup(s, t, present, unused, now).heap
    ensures var s' := DoLookup(s, t, present, unused, now);
      if h in s.heap then s'.heap[h].port == s.heap[h].port
      else s'.heap[h].port in s'.registry && s'.registry[s'.heap[h].port] == h
  {
  }

  /** Steps other than a lookup create no panel and rename none. */
  lemma NoNewPanel(s: System, step: Step, h: Handle)
    requires Invariant(s) && !step.Lookup? && h in Do(s, step).heap
    ensures h in s.heap && Do(s, step).heap[h].port == s.heap[h].port
  {
  }

  lemma RegistryStays(s: System, step: Step, p: PortName)
    requires Invariant(s) && !step.Lookup? && p in s.registry
    requires step.Evict? && Enabled(s, step) ==> step.port != p
    ensures p in Do(s, step).registry && Do(s, step).registry[p] == s.registry[p]
  {
  }

  /** Work changes the worker's own entry only. */
  lemma WorkTasks(s: System, t: TaskId, io: Io, u: TaskId)
    requires Invariant(s) && Enabled(s, Work(t, io)) && u in DoWork(s, t, io).tasks
    ensures u in s.tasks
    ensures u != t ==> DoWork(s, t, io).tasks[u] == s.tasks[u]
    ensures u == t ==>
      var task := DoWork(s, t, io).tasks[u];
      && (task.Job? <==> s.tasks[t].Job?) && !task.Router? && task.port == s.tasks[t].port
      && (task.HasHandle() ==> task.phase.handle == s.tasks[t].phase.handle)
  {
    WorkMovesOn(s, t, io);
  }

  /** Task u keeps to the registered panel and, if a router, has seen port p. */
  ghost predicate Keeps(s: System, p: PortName, u: TaskId)
    requires u in s.tasks
  {
    && (s.tasks[u].HasHandle() && s.tasks[u].port == p ==>
          p in s.registry && s.tasks[u].phase.handle == s.registry[p])
    && (s.tasks[u].Router? ==> p in s.tasks[u].present)
  }

  lemma PlainKeeps(s: System, p: PortName, step: Step, u: TaskId)
    requires Tracked(s, p) && KeepsOnBus(p, step) && Enabled(s, step)
    requires u in DoPlain(s, step).tasks
    ensures Keeps(DoPlain(s, step), p, u)
  {
    assert u in s.tasks ==> Keeps(s, p, u);
  }

  lemma LookupKeepsTrack(s: System, p: PortName, t: TaskId, present: set<PortName>, unused: Handle, now: int, u: TaskId)
    requires Tracked(s, p) && p in present && Enabled(s, Lookup(t, present, unused, now))
    requires u in DoLookup(s, t, present, unused, now).tasks
    ensures Keeps(DoLookup(s, t, present, unused, now), p, u)
  {
    assert u in s.tasks && Keeps(s, p, u);
    if p in s.registry {
      LookupRetains(s, p, t, present, unused, now);
    }
  }

  lemma TryLockKeepsTrack(s: System, p: PortName, t: TaskId, u: TaskId)
    requires Structured(s) && Tracked(s, p) && Enabled(s, TryLock(t)) && u in DoTryLock(s, t).tasks
    ensures Keeps(DoTryLock(s, t), p, u)
  {
    assert u in s.tasks && Keeps(s, p, u) && Keeps(s, p, t);
  }

  lemma WorkKeepsTrack(s: System, p: PortName, t: TaskId, io: Io, u: TaskId)
    requires Invariant(s) && Tracked(s, p) && Enabled(s, Work(t, io)) && u in DoWork(s, t, io).tasks
    ensures Keeps(DoWork(s, t, io), p, u)
  {
    WorkTasks(s, t, io, u);
    assert Keeps(s, p, u);
    assert DoWork(s, t, io).registry == s.registry;
  }

  /** An eviction of another port, or one that is refused. */
  lemma EvictKeepsTrack(s: System, p: PortName, t: TaskId, port: PortName, sleep: SleepIo, u: TaskId)
    requires Structured(s) && Tracked(s, p) && Enabled(s, Evict(t, port, sleep))
    requires port != p || DoEvict(s, t, port, sleep) == s
    requires u in DoEvict(s, t, port, sleep).tasks
    ensures Keeps(DoEvict(s, t, port, sleep), p, u)
  {
    assert Keeps(s, p, u);
  }

  lemma PollKeepsTrack(s: System, p: PortName, h: Handle, sleep: SleepIo, u: TaskId)
    requires Structured(s) && Tracked(s, p) && Enabled(s, PollPanel(h, sleep))
    requires u in DoPollPanel(s, h, sleep).tasks
    ensures Keeps(DoPollPanel(s, h, sleep), p, u)
  {
    assert Keeps(s, p, u);
  }

  /** The port is not evicted by this step. */
  ghost predicate Spared(s: System, p: PortName, step: Step)
    requires Invariant(s)
  {
    step.Evict? && step.port == p && Enabled(s, step) ==> Do(s, step) == s
  }

  /** A routed port is not evicted. */
  lemma RoutedIsSpared(s: System, p: PortName, step: Step)
    requires Invariant(s) && Routed(s, p)
    ensures Spared(s, p, step)
  {
  }

  /** Nor is one on the bus whose panel is in quarantine. */
  lemma BreachedIsSpared(s: System, p: PortName, step: Step)
    requires Invariant(s) && Tracked(s, p) && p in s.registry && Breached(s.heap[s.registry[p]].panel)
    ensures Spared(s, p, step)
  {
    assert CellFits(s.tasks, s.heap[s.registry[p]]);
    if step.Evict? && step.port == p && Enabled(s, step) {
      assert Keeps(s, p, step.task);
    }
  }

  lemma TaskKeepsTrack(s: System, p: PortName, step: Step, u: TaskId)
    requires Invariant(s) && Tracked(s, p) && KeepsOnBus(p, step) && Spared(s, p, step)
    requires Enabled(s, step) && u in Do(s, step).tasks
    ensures Keeps(Do(s, step), p, u)
  {
    match step
    case Evict(t, port, sleep) => EvictKeepsTrack(s, p, t, port, sleep, u);
    case Lookup(t, present, unused, now) => LookupKeepsTrack(s, p, t, present, unused, now, u);
    case TryLock(t) => TryLockKeepsTrack(s, p, t, u);
    case Work(t, io) => WorkKeepsTrack(s, p, t, io, u);
    case PollPanel(h, sleep) => PollKeepsTrack(s, p, h, sleep, u);
    case _ => PlainKeeps(s, p, step, u);
  }

  lemma TrackedByTasks(s: System, p: PortName)
    requires forall u :: u in s.tasks ==> Keeps(s, p, u)
    ensures Tracked(s, p)
  {
    assert forall u :: u in s.tasks ==> Keeps(s, p, u);
  }

  lemma StepKeepsTrack(s: System, p: PortName, step: Step)
    requires Invariant(s) && Tracked(s, p) && KeepsOnBus(p, step) && Spared(s, p, step)
    ensures Tracked(Do(s, step), p)
  {
    if Enabled(s, step) {
      forall u | u in Do(s, step).tasks ensures Keeps(Do(s, step), p, u) {
        TaskKeepsTrack(s, p, step, u);
      }
      TrackedByTasks(Do(s, step), p);
    }
  }

  /** A registered port that is tracked stays registered, with the same panel. */
  lemma StepKeepsEntry(s: System, p: PortName, step: Step)
    requires Invariant(s) && Tracked(s, p) && KeepsOnBus(p, step) && Spared(s, p, step) && p in s.registry
    ensures p in Do(s, step).registry && Do(s, step).registry[p] == s.registry[p]
  {
    if Enabled(s, step) && !(step.Evict? && step.port == p) {
      match step
      case Lookup(t, present, unused, now) => LookupRetains(s, p, t, present, unused, now);
      case _ => RegistryStays(s, step, p);
    }
  }

  lemma TryLockRoutes(s: System, p: PortName, t: TaskId)
    requires Structured(s) && Routed(s, p) && Enabled(s, TryLock(t))
    ensures Routed(DoTryLock(s, t), p)
  {
  }

  lemma WorkRoutes(s: System, p: PortName, t: TaskId, io: Io)
    requires Invariant(s) && Routed(s, p) && Enabled(s, Work(t, io))
    ensures Routed(DoWork(s, t, io), p)
  {
    forall u | u in DoWork(s, t, io).tasks && DoWork(s, t, io).tasks[u].Router?
      ensures p in DoWork(s, t, io).tasks[u].routed
    {
      WorkTasks(s, t, io, u);
    }
  }

  lemma LookupRoutes(s: System, p: PortName, t: TaskId, present: set<PortName>, unused: Handle, now: int)
    requires Routed(s, p) && Enabled(s, Lookup(t, present, unused, now))
    ensures Routed(DoLookup(s, t, present, unused, now), p)
  {
  }

  lemma PlainRoutes(s: System, p: PortName, step: Step)
    requires Routed(s, p) && KeepsRouted(p, step) && Enabled(s, step)
    ensures Routed(DoPlain(s, step), p)
  {
  }

  lemma StepKeepsRoute(s: System, p: PortName, step: Step)
    requires Invariant(s) && Routed(s, p) && KeepsRouted(p, step)
    ensures Routed(Do(s, step), p)
  {
    if Enabled(s, step) {
      match step
      case Evict(_, _, _) =>
      case PollPanel(_, _) =>
      case Lookup(t, present, unused, now) => LookupRoutes(s, p, t, present, unused, now);
      case TryLock(t) => TryLockRoutes(s, p, t);
      case Work(t, io) => WorkRoutes(s, p, t, io);
      case _ => PlainRoutes(s, p, step);
    }
  }

  /** A lock holder never writes on a panel that is in quarantine. */
  lemma QuarantinedWork(task: Task, p: PanelState, stopping: bool, io: Io)
    requires task.Holds() && Fits(task, p) && Breached(p)
    ensures WorkOn(task, p, stopping, io).panel.closed == p.closed
    ensures WorkOn(task, p, stopping, io).panel.conn.None?
  {
    assert task.phase.Locked? || task.phase.Leaving? || task.phase.Ending?;
  }

  lemma StepKeepsQuarantine(s: System, step: Step, h: Handle)
    requires Invariant(s) && h in s.heap && Breached(s.heap[h].panel)
    ensures h in Do(s, step).heap
    ensures Do(s, step).heap[h].panel.closed == s.heap[h].panel.closed
    ensures Do(s, step).heap[h].panel.conn.None? && s.heap[h].panel.conn.None?
  {
    assert CellFits(s.tasks, s.heap[h]);
    if !step.Work? {
      PanelFrame(s, step, h);
    } else if Enabled(s, step) {
      if s.tasks[step.task].phase.handle == h {
        QuarantinedWork(s.tasks[step.task], s.heap[h].panel, s.stopping, step.io);
      } else {
        WorkFrame(s, step.task, step.io, h);
      }
    }
  }

  lemma EvictTouchesEntry(s: System, t: TaskId, port: PortName, sleep: SleepIo, g: Handle)
    requires Structured(s) && Enabled(s, Evict(t, port, sleep)) && g in s.heap && s.registry[port] != g
    ensures g in DoEvict(s, t, port, sleep).heap && DoEvict(s, t, port, sleep).heap[g].panel == s.heap[g].panel
  {
  }

  lemma PollTouchesOne(s: System, h: Handle, sleep: SleepIo, g: Handle)
    requires Structured(s) && Enabled(s, PollPanel(h, sleep)) && g in s.heap && g != h
    ensures g in DoPollPanel(s, h, sleep).heap && DoPollPanel(s, h, sleep).heap[g].panel == s.heap[g].panel
  {
  }

  lemma TryLockTouchesNone(s: System, t: TaskId, g: Handle)
    requires Structured(s) && Enabled(s, TryLock(t)) && g in s.heap
    ensures g in DoTryLock(s, t).heap && DoTryLock(s, t).heap[g].panel == s.heap[g].panel
  {
  }

  /** Nobody refers to a panel of a tracked port other than the registered one. */
  lemma Forgotten(s: System, p: PortName, g: Handle)
    requires Structured(s) && Tracked(s, p) && p in s.registry
    requires g in s.heap && s.heap[g].port == p && g != s.registry[p]
    ensures forall t :: t in s.tasks && s.tasks[t].HasHandle() ==> s.tasks[t].phase.handle != g
    ensures forall q :: q in s.registry ==> s.registry[q] != g
  {
  }

  lemma ForgottenPanelStays(s: System, p: PortName, step: Step, g: Handle)
    requires Invariant(s) && Tracked(s, p) && p in s.registry
    requires g in s.heap && s.heap[g].port == p && g != s.registry[p]
    ensures g in Do(s, step).heap && Do(s, step).heap[g].panel == s.heap[g].panel
  {
    Forgotten(s, p, g);
    if Enabled(s, step) {
      match step
      case Evict(t, port, sleep) => EvictTouchesEntry(s, t, port, sleep, g);
      case Lookup(t, present, unused, now) => LookupCell(s, t, present, unused, now, g);
      case TryLock(t) => TryLockTouchesNone(s, t, g);
      case Work(t, io) => WorkFrame(s, t, io, g);
      case PollPanel(h, sleep) =>
        RegisteredIsPolled(s, h);
        PollTouchesOne(s, h, sleep, g);
      case _ =>
    }
  }

  lemma RegisteredIsPolled(s: System, h: Handle)
    requires Structured(s) && s.poll.Scanning? && h in s.poll.todo
    ensures h in s.heap && s.heap[h].port in s.registry && s.registry[s.heap[h].port] == h
  {
    assert h in s.registry.Values;
    var q :| q in s.registry && s.registry[q] == h;
  }

  /** A tracked, registered port gets no second panel object. */
  lemma NoSecondPanel(s: System, p: PortName, step: Step, g: Handle)
    requires Invariant(s) && Tracked(s, p) && KeepsOnBus(p, step) && p in s.registry
    requires g in Do(s, step).heap && Do(s, step).heap[g].port == p
    ensures g in s.heap && s.heap[g].port == p
  {
    if !step.Lookup? {
      NoNewPanel(s, step, g);
    } else if Enabled(s, step) {
      LookupAllocates(s, step.task, step.present, step.unused, step.now, g);
      LookupRetains(s, p, step.task, step.present, step.unused, step.now);
    }
  }

  /** No panel of the port is new, and nothing was written on any. */
  ghost predicate Untouched(s: System, s': System, p: PortName) {
    forall g :: g in s'.heap && s'.heap[g].port == p ==>
      g in s.heap && s.heap[g].port == p && Traffic(s'.heap[g].panel) == Traffic(s.heap[g].panel)
  }

  ghost predicate Quarantined(s: System, p: PortName) {
    Tracked(s, p) && p in s.registry && s.registry[p] in s.heap && Breached(s.heap[s.registry[p]].panel)
  }

  lemma StepKeepsQuarantined(s: System, p: PortName, step: Step)
    requires Invariant(s) && Quarantined(s, p) && KeepsOnBus(p, step)
    ensures Quarantined(Do(s, step), p) && Do(s, step).registry[p] == s.registry[p]
  {
    BreachedIsSpared(s, p, step);
    StepKeepsTrack(s, p, step);
    StepKeepsEntry(s, p, step);
    StepKeepsQuarantine(s, step, s.registry[p]);
    BreachedByClosed(s.heap[s.registry[p]].panel, Do(s, step).heap[s.registry[p]].panel);
  }

  lemma StepTouchesNone(s: System, p: PortName, step: Step)
    requires Invariant(s) && Quarantined(s, p) && KeepsOnBus(p, step)
    ensures Untouched(s, Do(s, step), p)
  {
    var s' := Do(s, step);
    forall g | g in s'.heap && s'.heap[g].port == p
      ensures g in s.heap && s.heap[g].port == p && Traffic(s'.heap[g].panel) == Traffic(s.heap[g].panel)
    {
      NoSecondPanel(s, p, step, g);
      if g == s.registry[p] {
        StepKeepsQuarantine(s, step, g);
      } else {
        ForgottenPanelStays(s, p, step, g);
      }
    }
  }

  lemma {:induction false} RunKeepsQuarantined(s: System, p: PortName, steps: seq<Step>)
    requires Invariant(s) && Quarantined(s, p) && AllKeepOnBus(p, steps)
    ensures Quarantined(Run(s, steps), p) && Run(s, steps).registry[p] == s.registry[p]
    ensures Untouched(s, Run(s, steps), p)
    decreases |steps|
  {
    if steps != [] {
      assert KeepsOnBus(p, steps[0]);
      StepKeeps(s, steps[0]);
      StepKeepsQuarantined(s, p, steps[0]);
      StepTouchesNone(s, p, steps[0]);
      assert AllKeepOnBus(p, steps[1..]);
      RunKeepsQuarantined(Do(s, steps[0]), p, steps[1..]);
      UntouchedTwice(s, Do(s, steps[0]), Run(s, steps), p);
    }
  }

  lemma UntouchedTwice(s: System, s': System, s'': System, p: PortName)
    requires Untouched(s, s', p) && Untouched(s', s'', p)
    ensures Untouched(s, s'', p)
  {
  }

  lemma BreachedByClosed(p: PanelState, q: PanelState)
    requires Breached(p) && q.closed == p.closed
    ensures Breached(q)
  {
  }

  lemma {:induction false} RunKeepsTrack(s: System, p: PortName, steps: seq<Step>)
    requires Invariant(s) && Tracked(s, p) && Routed(s, p) && AllKeepRouted(p, steps)
    ensures Tracked(Run(s, steps), p) && Routed(Run(s, steps), p)
    decreases |steps|
  {
    if steps != [] {
      assert KeepsRouted(p, steps[0]);
      StepKeeps(s, steps[0]);
      RoutedIsSpared(s, p, steps[0]);
      StepKeepsTrack(s, p, steps[0]);
      StepKeepsRoute(s, p, steps[0]);
      assert AllKeepRouted(p, steps[1..]);
      RunKeepsTrack(Do(s, steps[0]), p, steps[1..]);
    }
  }

  /** No task refers to a panel of the port, and no routing round is under way. */
  ghost predicate Unconcerned(s: System, p: PortName) {
    forall t :: t in s.tasks ==> !s.tasks[t].Router? && !(s.tasks[t].HasHandle() && s.tasks[t].port == p)
  }

  /**
   A port is tracked at the start, and whenever no task refers to a panel of it and
   no routing round is under way, as before its module is plugged in or its panel is
   bound. It stays tracked while it stays routed.
   */
  lemma TrackedWhileRouted(p: PortName, before: seq<Step>, since: seq<Step>)
    requires AllKeepRouted(p, since)
    requires (Tracked(After(before), p) && Routed(After(before), p)) || Unconcerned(After(before), p)
    ensures Tracked(After(before + since), p) && Routed(After(before + since), p)
  {
    InitialHolds();
    RunAppend(INITIAL, before, since);
    RunKeepsTrack(After(before), p, since);
  }

  /**
   Whatever happened before: once a write has failed on the stored connection of a
   tracked port's panel, then as long as the port stays on the bus, routed or not, no
   interleaving writes another byte to it, on this panel object or any other.
   */
  lemma Quarantine(p: PortName, before: seq<Step>, later: seq<Step>)
    requires AllKeepOnBus(p, later)
    requires Tracked(After(before), p) && p in After(before).registry
    requires Breached(After(before).heap[After(before).registry[p]].panel)
    ensures var s, s' := After(before), After(before + later);
      && Tracked(s', p) && p in s'.registry && s'.registry[p] == s.registry[p] && s'.registry[p] in s'.heap
      && forall g :: g in s'.heap && s'.heap[g].port == p ==>
           g in s.heap && s.heap[g].port == p && Traffic(s'.heap[g].panel) == Traffic(s.heap[g].panel)
  {
    InitialHolds();
    RunAppend(INITIAL, before, later);
    RunKeepsQuarantined(After(before), p, later);
  }

  // ------------------------------------------------- the quarantine flag, and sleep

  /** The flags and the closed connections of a panel are as they should be. */
  ghost predicate Told(p: PanelState) {
    FlagIsExact(p) && Rested(p)
  }

  lemma JobWorkTold(task: Task, p: PanelState, stopping: bool, io: Io)
    requires task.Job? && task.Holds() && Fits(task, p) && Told(p)
    ensures Told(JobWork(task, p, stopping, io).panel)
  {
    match task.phase
    case Checked(_) =>
      OpenFlag(p, task.level, io.now, io.open);
      OpenStageRests(p, task.level, io.now, io.open);
    case Ready(_) =>
      SleepFlag(p, io.sleep);
      SleepRests(p, io.sleep);
    case Painting(_) =>
      PaintFlag(p, task.level.value, task.frame, io.now, io.later, io.write);
      PaintRests(p, task.level.value, task.frame, io.now, io.later, io.write);
    case Ending(_) =>
      SleepFlag(p, io.sleep);
      SleepRests(p, io.sleep);
    case _ =>
  }

  lemma IdentifyWorkTold(task: Task, p: PanelState, stopping: bool, io: Io)
    requires task.Identify? && task.Holds() && Fits(task, p) && Told(p)
    ensures Told(IdentifyWork(task, p, stopping, io).panel)
  {
    match task.phase
    case Checked(_) =>
      WakeFlag(p, io.now, io.write, io.open);
      WakeRests(p, io.now, io.write, io.open);
    case Ready(_) =>
      FlashFlag(p, io.active, io.flash, io.bits, io.now, io.write);
      FlashRests(p, io.active, io.flash, io.bits, io.now, io.write);
    case Restoring(_) =>
      SendFlag(p, GreyscaleCommands(io.frame), io.now, io.write);
      SendRests(p, GreyscaleCommands(io.frame), io.now, io.write);
    case Leveling(_) =>
      LevelFlag(p, io.level, io.now, io.write, io.sleep);
      LevelRests(p, io.level, io.now, io.write, io.sleep);
    case Ending(_) =>
      IdentifyEndFlag(p, stopping, io.sleep);
      IdentifyEndRests(p, stopping, io.sleep);
    case _ =>
  }

  ghost predicate AllTold(s: System) {
    forall h :: h in s.heap ==> Told(s.heap[h].panel)
  }

  lemma WorkTold(task: Task, p: PanelState, stopping: bool, io: Io)
    requires task.Holds() && Fits(task, p) && Told(p)
    ensures Told(WorkOn(task, p, stopping, io).panel)
  {
    if task.Job? {
      JobWorkTold(task, p, stopping, io);
    } else {
      IdentifyWorkTold(task, p, stopping, io);
    }
  }

  /** Work puts its outcome into the worker's panel and touches no other. */
  lemma WorkPanels(s: System, t: TaskId, io: Io)
    requires Invariant(s) && Enabled(s, Work(t, io))
    ensures var h := s.tasks[t].phase.handle;
      && h in s.heap && Fits(s.tasks[t], s.heap[h].panel)
      && DoWork(s, t, io).heap.Keys == s.heap.Keys
      && DoWork(s, t, io).heap[h].panel == WorkOn(s.tasks[t], s.heap[h].panel, s.stopping, io).panel
      && forall g :: g in s.heap && g != h ==> DoWork(s, t, io).heap[g] == s.heap[g]
  {
    assert CellFits(s.tasks, s.heap[s.tasks[t].phase.handle]);
  }

  lemma WorkKeepsTold(s: System, t: TaskId, io: Io)
    requires Invariant(s) && AllTold(s) && Enabled(s, Work(t, io))
    ensures AllTold(DoWork(s, t, io))
  {
    WorkPanels(s, t, io);
    WorkTold(s.tasks[t], s.heap[s.tasks[t].phase.handle].panel, s.stopping, io);
  }

  lemma SleepKeepsTold(s: System, h: Handle, sleep: SleepIo)
    requires Invariant(s) && AllTold(s) && h in s.heap && s.heap[h].holder.None?
    ensures Told(SleepPanel(s.heap[h].panel, sleep))
  {
    assert CellFits(s.tasks, s.heap[h]);
    SleepFlag(s.heap[h].panel, sleep);
    SleepRests(s.heap[h].panel, sleep);
  }

  lemma FreshIsTold(now: int)
    ensures Told(Panel.Fresh(now))
  {
  }

  lemma EvictKeepsTold(s: System, t: TaskId, port: PortName, sleep: SleepIo)
    requires Invariant(s) && AllTold(s) && Enabled(s, Evict(t, port, sleep))
    ensures AllTold(DoEvict(s, t, port, sleep))
  {
    if s.heap[s.registry[port]].holder.None? {
      SleepKeepsTold(s, s.registry[port], sleep);
    }
  }

  lemma PollKeepsTold(s: System, h: Handle, sleep: SleepIo)
    requires Invariant(s) && AllTold(s) && Enabled(s, PollPanel(h, sleep))
    ensures AllTold(DoPollPanel(s, h, sleep))
  {
    if s.heap[h].holder.None? {
      SleepKeepsTold(s, h, sleep);
    }
  }

  lemma LookupKeepsTold(s: System, t: TaskId, present: set<PortName>, unused: Handle, now: int)
    requires AllTold(s) && Enabled(s, Lookup(t, present, unused, now))
    ensures AllTold(DoLookup(s, t, present, unused, now))
  {
    FreshIsTold(now);
  }

  lemma TryLockKeepsTold(s: System, t: TaskId)
    requires Structured(s) && AllTold(s) && Enabled(s, TryLock(t))
    ensures AllTold(DoTryLock(s, t))
  {
  }

  lemma StepKeepsTold(s: System, step: Step)
    requires Invariant(s) && AllTold(s)
    ensures AllTold(Do(s, step))
  {
    if Enabled(s, step) {
      match step
      case Work(t, io) => WorkKeepsTold(s, t, io);
      case Evict(t, port, sleep) => EvictKeepsTold(s, t, port, sleep);
      case PollPanel(h, sleep) => PollKeepsTold(s, h, sleep);
      case Lookup(t, present, unused, now) => LookupKeepsTold(s, t, present, unused, now);
      case TryLock(t) => TryLockKeepsTold(s, t);
      case _ =>
    }
  }

  lemma {:induction false} RunKeepsTold(s: System, steps: seq<Step>)
    requires Invariant(s) && AllTold(s)
    ensures AllTold(Run(s, steps))
    decreases |steps|
  {
    if steps != [] {
      StepKeeps(s, steps[0]);
      StepKeepsTold(s, steps[0]);
      RunKeepsTold(Do(s, steps[0]), steps[1..]);
    }
  }

  /**
   After any interleaving, a panel is flagged for replugging exactly if some
   connection the driver had stored has met an error.
   */
  lemma FlaggedIffStoredPortFailed(steps: seq<Step>, h: Handle)
    requires h in After(steps).heap
    ensures After(steps).heap[h].panel.needsReplug <==> Breached(After(steps).heap[h].panel)
  {
    InitialHolds();
    RunKeepsTold(INITIAL, steps);
    assert Told(After(steps).heap[h].panel);
  }

  /**
   After any interleaving, every connection that the driver stored, closed and never
   met an error on has left the module asleep at a command boundary, whatever it did
   before; so a panel switched off sleeps, and so does every panel at shutdown.
   */
  lemma ClosedIsAsleep(steps: seq<Step>, h: Handle, c: Conn, display: Display)
    requires h in After(steps).heap && c in After(steps).heap[h].panel.closed && c.kept && !c.failed
    ensures var out := Feed(Device([], display), c.log);
      out.AtBoundary() && !out.display.awake
  {
    InitialHolds();
    RunKeepsTold(INITIAL, steps);
    var p := After(steps).heap[h].panel;
    assert Told(p);
    var i :| 0 <= i < |p.closed| && p.closed[i] == c;
    assert SleepsFrom(display, p.closed[i].log);
  }

  /**
   A free panel that is no longer routed is put to sleep, closed and forgotten, except
   that a flagged one stays registered while it is on the bus; one at work is left alone.
   */
  lemma EvictionSleeps(steps: seq<Step>, t: TaskId, port: PortName, display: Display)
    requires Enabled(After(steps), Evict(t, port, SleepIo(Sent, true)))
    ensures var s, s' := After(steps), Do(After(steps), Evict(t, port, SleepIo(Sent, true)));
      var h := s.registry[port];
      if s.heap[h].holder.Some? || (s.heap[h].panel.needsReplug && port in s.tasks[t].present) then s' == s
      else
        && port !in s'.registry && s'.heap[h].panel.conn.None?
        && (s.heap[h].panel.conn.Some? ==>
              && |s'.heap[h].panel.closed| == |s.heap[h].panel.closed| + 1
              && var out := Feed(Device([], display), s'.heap[h].panel.closed[|s.heap[h].panel.closed|].log);
                 out.AtBoundary() && !out.display.awake)
  {
    var s := After(steps);
    var cell := s.heap[s.registry[port]];
    if cell.holder.None? && cell.panel.conn.Some? {
      assert CellFits(s.tasks, cell);
      SleepCommandSleeps(cell.panel.conn.value.log);
      assert SleepsFrom(display, cell.panel.conn.value.log + EncodeAll([Sleep(1)]));
    }
  }

  /**
   A panel that counts as confirmed off is closed, and the newest connection the
   driver had stored was closed without an error, so the module was asleep behind it.
   */
  lemma ConfirmedOffIsClosed(steps: seq<Step>, h: Handle)
    requires h in After(steps).heap && After(steps).heap[h].panel.confirmedOff
    ensures var p := After(steps).heap[h].panel;
      && p.conn.None?
      && exists i :: (&& 0 <= i < |p.closed| && p.closed[i].kept && !p.closed[i].failed
                      && forall j :: i < j < |p.closed| ==> !p.closed[j].kept)
  {
    InitialHolds();
    RunKeepsTold(INITIAL, steps);
    assert Told(After(steps).heap[h].panel);
  }

  /**
   The quarantine starts only with a stored connection: if the wake command is
   cut while the port is being opened, the next attempt after the retry delay
   opens the port again and writes behind the cut.
   */
  lemma CutWhileOpeningIsRetried(now: int, k: nat, level: byte)
    requires 0 < k < |EncodeAll([Sleep(0)])|
    ensures
      var cut := OpenIo(true, Broken(k), Sent, None);
      var fine := OpenIo(true, Sent, Sent, Some((0, 0x20, 0)));
      var first := OpenStage(Panel.Fresh(now), Some(level), now, cut).panel;
      var second := OpenStage(first, Some(level), now + RETRY, fine).panel;
      && Panel.Ready(Panel.Fresh(now), now)
      && |first.closed| == 1 && first.closed[0].failed && !Whole(first.closed[0].log)
      && Panel.Ready(first, now + RETRY)
      && Traffic(second) != Traffic(first)
  {
    var bytes := EncodeAll([Sleep(0)]);
    var first := OpenStage(Panel.Fresh(now), Some(level), now, OpenIo(true, Broken(k), Sent, None)).panel;
    var log := first.closed[0].log;
    assert log == bytes[..k];
    assert bytes == Encode(Sleep(0)) + [];
    assert |log| < 4;
    assert Parse(log).rest == log;
  }
}
