/** The driver's locked steps, one after the other, are the whole jobs of a panel. */
module JobStages {
  import opened Basics
  import opened Protocol
  import opened Panel
  import opened Driver
  import opened DriverSafety

  /** What one locked step sees and meets: the stop flag and the outside world. */
  datatype Turn = Turn(stopping: bool, io: Io)

  /** How many locked steps are at most ahead of a task. */
  function Ahead(phase: Phase): nat {
    match phase
    case Locked(_) => 6
    case Checked(_) => 5
    case Ready(_) => 4
    case Painting(_) => 3
    case Restoring(_) => 3
    case Leveling(_) => 2
    case Done => 0
    case _ => 1
  }

  /** The turns of a job or an identification, by what is still ahead; nothing comes twice. */
  datatype Turns = Turns(check: Turn, open: Turn, branch: Turn, paint: Turn, level: Turn, end: Turn) {
    function At(phase: Phase): Turn {
      Of(Ahead(phase))
    }

    function Of(ahead: nat): Turn {
      match ahead
      case 6 => check
      case 5 => open
      case 4 => branch
      case 3 => paint
      case 2 => level
      case _ => end
    }

    function With(ahead: nat, turn: Turn): Turns {
      match ahead
      case 6 => this.(check := turn)
      case 5 => this.(open := turn)
      case 4 => this.(branch := turn)
      case 3 => this.(paint := turn)
      case 2 => this.(level := turn)
      case _ => this.(end := turn)
    }
  }

  /** The panel when the task lets go of it, from the task's present phase on. */
  function LetGo(task: Task, p: PanelState, turns: Turns): PanelState
    requires task.Holds() && Fits(task, p)
    decreases Ahead(task.phase)
  {
    var turn := turns.At(task.phase);
    WorkFits(task, p, turn.stopping, turn.io);
    var w := WorkOn(task, p, turn.stopping, turn.io);
    if w.phase.Done? then w.panel else LetGo(task.(phase := w.phase), w.panel, turns)
  }

  // ------------------------------------------------------------------ routing jobs

  function SeenBy(turns: Turns): JobView {
    JobView(turns.check.io.now, turns.open.io.now, turns.paint.io.now, turns.paint.io.later,
            turns.check.stopping, turns.branch.stopping, turns.end.stopping)
  }

  function MetBy(turns: Turns): JobIo {
    JobIo(turns.open.io.open, turns.branch.io.sleep, turns.paint.io.write, turns.end.io.sleep)
  }

  lemma JobEnds(task: Task, p: PanelState, turns: Turns)
    requires task.Job? && task.Holds() && Fits(task, p) && task.phase.Ending?
    ensures LetGo(task, p, turns) == EndStage(p, turns.end.stopping, turns.end.io.sleep)
  {
  }

  /** What is left of a routing job once its port is open. */
  function Opened(p: PanelState, level: Option<byte>, frame: Picture, seen: JobView, io: JobIo): PanelState
    requires p.conn.Some?
  {
    var b := BranchStage(p, level, seen.atBranch, io.branch);
    EndStage(if b.goOn then PaintStage(b.panel, level.value, frame, seen.lookAt, seen.paintedAt, io.paint) else b.panel,
             seen.atEnd, io.end)
  }

  lemma JobPaints(task: Task, p: PanelState, turns: Turns)
    requires task.Job? && task.Holds() && Fits(task, p) && task.phase.Painting?
    ensures var io := MetBy(turns);
      LetGo(task, p, turns)
      == EndStage(PaintStage(p, task.level.value, task.frame, turns.paint.io.now, turns.paint.io.later, io.paint),
                  turns.end.stopping, io.end)
  {
    JobWorkFits(task, p, turns.paint.stopping, turns.paint.io);
    var w := JobWork(task, p, turns.paint.stopping, turns.paint.io);
    JobEnds(Job(task.port, task.level, task.frame, w.phase), w.panel, turns);
  }

  lemma JobBranches(task: Task, p: PanelState, turns: Turns)
    requires task.Job? && task.Holds() && Fits(task, p) && task.phase.Ready?
    ensures LetGo(task, p, turns) == Opened(p, task.level, task.frame, SeenBy(turns), MetBy(turns))
  {
    JobWorkFits(task, p, turns.branch.stopping, turns.branch.io);
    var w := JobWork(task, p, turns.branch.stopping, turns.branch.io);
    if w.phase.Painting? {
      JobPaints(Job(task.port, task.level, task.frame, w.phase), w.panel, turns);
    } else {
      JobEnds(Job(task.port, task.level, task.frame, w.phase), w.panel, turns);
    }
  }

  lemma JobOpens(task: Task, p: PanelState, turns: Turns)
    requires task.Job? && task.Holds() && Fits(task, p) && task.phase.Checked?
    ensures var a := OpenStage(p, task.level, turns.open.io.now, turns.open.io.open);
      LetGo(task, p, turns)
      == if a.goOn then Opened(a.panel, task.level, task.frame, SeenBy(turns), MetBy(turns))
         else EndStage(a.panel, turns.end.stopping, turns.end.io.sleep)
  {
    JobWorkFits(task, p, turns.open.stopping, turns.open.io);
    var w := JobWork(task, p, turns.open.stopping, turns.open.io);
    if w.phase.Ready? {
      JobBranches(Job(task.port, task.level, task.frame, w.phase), w.panel, turns);
    } else {
      JobEnds(Job(task.port, task.level, task.frame, w.phase), w.panel, turns);
    }
  }

  /** The locked steps of a routing job, whatever they see and meet, are one whole routing job. */
  lemma StepsAreRouteJob(task: Task, p: PanelState, turns: Turns)
    requires task.Job? && task.Holds() && Fits(task, p) && task.phase.Locked?
    ensures LetGo(task, p, turns) == RouteJob(p, task.level, task.frame, SeenBy(turns), MetBy(turns))
  {
    JobWorkFits(task, p, turns.check.stopping, turns.check.io);
    var w := JobWork(task, p, turns.check.stopping, turns.check.io);
    if w.phase.Checked? {
      JobOpens(Job(task.port, task.level, task.frame, w.phase), w.panel, turns);
    }
  }

  // ---------------------------------------------------------------- identifications

  function ViewOf(turns: Turns): IdentifyView {
    IdentifyView(turns.check.io.now, turns.open.io.now,
      if turns.branch.io.active && turns.branch.io.write.Broken? then turns.branch.io.now
      else if turns.paint.io.write.Broken? then turns.paint.io.now else turns.level.io.now,
      turns.branch.io.active, turns.end.stopping)
  }

  function IoOf(turns: Turns): IdentifyIo {
    IdentifyIo(turns.open.io.write, turns.open.io.open, turns.branch.io.write, turns.paint.io.write,
               turns.level.io.write, turns.level.io.sleep, turns.end.io.sleep)
  }

  lemma IdentifyEnds(task: Task, p: PanelState, turns: Turns)
    requires task.Identify? && task.Holds() && Fits(task, p) && task.phase.Ending?
    ensures LetGo(task, p, turns) == IdentifyEnd(p, turns.end.stopping, turns.end.io.sleep)
  {
  }

  lemma IdentifyLevels(task: Task, p: PanelState, turns: Turns)
    requires task.Identify? && task.Holds() && Fits(task, p) && task.phase.Leveling?
    ensures var io := turns.level.io;
      LetGo(task, p, turns)
      == IdentifyEnd(LevelStage(p, io.level, io.now, io.write, io.sleep), turns.end.stopping, turns.end.io.sleep)
  {
    IdentifyWorkFits(task, p, turns.level.stopping, turns.level.io);
    var w := IdentifyWork(task, p, turns.level.stopping, turns.level.io);
    IdentifyEnds(Identify(task.port, w.phase), w.panel, turns);
  }

  lemma IdentifyRestores(task: Task, p: PanelState, turns: Turns)
    requires task.Identify? && task.Holds() && Fits(task, p) && task.phase.Restoring?
    ensures var c := SendStage(p, GreyscaleCommands(turns.paint.io.frame), turns.paint.io.now, turns.paint.io.write);
      var io := turns.level.io;
      LetGo(task, p, turns)
      == IdentifyEnd(if c.goOn then LevelStage(c.panel, io.level, io.now, io.write, io.sleep) else c.panel,
                     turns.end.stopping, turns.end.io.sleep)
  {
    IdentifyWorkFits(task, p, turns.paint.stopping, turns.paint.io);
    var w := IdentifyWork(task, p, turns.paint.stopping, turns.paint.io);
    assert LetGo(task, p, turns) == LetGo(Identify(task.port, w.phase), w.panel, turns);
    if w.phase.Leveling? {
      IdentifyLevels(Identify(task.port, w.phase), w.panel, turns);
    } else {
      IdentifyEnds(Identify(task.port, w.phase), w.panel, turns);
    }
  }

  lemma IdentifyFlashes(task: Task, p: PanelState, turns: Turns)
    requires task.Identify? && task.Holds() && Fits(task, p) && task.phase.Ready?
    ensures var flash, io := turns.branch.io, IoOf(turns);
      LetGo(task, p, turns)
      == IdentifyEnd(Shown(p, flash.flash, flash.bits, turns.paint.io.frame, turns.level.io.level, flash.active,
                           ViewOf(turns).failAt, io.flash, io.restore, io.level, io.sleep),
                     turns.end.stopping, turns.end.io.sleep)
  {
    IdentifyWorkFits(task, p, turns.branch.stopping, turns.branch.io);
    var w := IdentifyWork(task, p, turns.branch.stopping, turns.branch.io);
    if w.phase.Restoring? {
      IdentifyRestores(Identify(task.port, w.phase), w.panel, turns);
    } else {
      IdentifyEnds(Identify(task.port, w.phase), w.panel, turns);
    }
  }

  lemma IdentifyWakes(task: Task, p: PanelState, turns: Turns)
    requires task.Identify? && task.Holds() && Fits(task, p) && task.phase.Checked?
    ensures var a := WakeStage(p, turns.open.io.now, turns.open.io.write, turns.open.io.open);
      var flash, io := turns.branch.io, IoOf(turns);
      LetGo(task, p, turns)
      == IdentifyEnd(
           if a.goOn
           then Shown(a.panel, flash.flash, flash.bits, turns.paint.io.frame, turns.level.io.level, flash.active,
                      ViewOf(turns).failAt, io.flash, io.restore, io.level, io.sleep)
           else a.panel,
           turns.end.stopping, turns.end.io.sleep)
  {
    IdentifyWorkFits(task, p, turns.open.stopping, turns.open.io);
    var w := IdentifyWork(task, p, turns.open.stopping, turns.open.io);
    if w.phase.Ready? {
      IdentifyFlashes(Identify(task.port, w.phase), w.panel, turns);
    } else {
      IdentifyEnds(Identify(task.port, w.phase), w.panel, turns);
    }
  }

  /** The locked steps of an identification, whatever they see and meet, are one whole identification. */
  lemma StepsAreIdentification(task: Task, p: PanelState, turns: Turns)
    requires task.Identify? && task.Holds() && Fits(task, p) && task.phase.Locked?
    ensures LetGo(task, p, turns)
         == Identification(p, turns.branch.io.flash, turns.branch.io.bits, turns.paint.io.frame,
                           turns.level.io.level, ViewOf(turns), IoOf(turns))
  {
    IdentifyWorkFits(task, p, turns.check.stopping, turns.check.io);
    var w := IdentifyWork(task, p, turns.check.stopping, turns.check.io);
    if w.phase.Checked? {
      IdentifyWakes(Identify(task.port, w.phase), w.panel, turns);
    }
  }

  // ------------------------------------------------------------- in any interleaving

  /** Only the turns still ahead matter. */
  lemma {:induction false} LetGoLooksAhead(task: Task, p: PanelState, turns: Turns, others: Turns)
    requires task.Holds() && Fits(task, p)
    requires forall k :: 1 <= k <= Ahead(task.phase) ==> turns.Of(k) == others.Of(k)
    ensures LetGo(task, p, turns) == LetGo(task, p, others)
    decreases Ahead(task.phase)
  {
    var turn := turns.At(task.phase);
    assert Ahead(task.phase) >= 1;
    assert turn == others.At(task.phase);
    WorkFits(task, p, turn.stopping, turn.io);
    var w := WorkOn(task, p, turn.stopping, turn.io);
    if !w.phase.Done? {
      LetGoLooksAhead(task.(phase := w.phase), w.panel, turns, others);
    }
  }

  ghost predicate LeavesAlone(s: System, s': System, t: TaskId)
    requires t in s.tasks && s.tasks[t].Holds()
  {
    var h := s.tasks[t].phase.handle;
    t in s'.tasks && s'.tasks[t] == s.tasks[t] && h in s.heap && h in s'.heap && s'.heap[h] == s.heap[h]
  }

  lemma OtherWorkLeavesAlone(s: System, u: TaskId, io: Io, t: TaskId)
    requires Invariant(s) && t in s.tasks && s.tasks[t].Holds() && u != t && Enabled(s, Work(u, io))
    ensures LeavesAlone(s, DoWork(s, u, io), t)
  {
    WorkMovesOn(s, u, io);
  }

  lemma LookupLeavesAlone(s: System, step: Step, t: TaskId)
    requires Invariant(s) && t in s.tasks && s.tasks[t].Holds() && step.Lookup? && Enabled(s, step)
    ensures LeavesAlone(s, DoLookup(s, step.task, step.present, step.unused, step.now), t)
  {
  }

  lemma TryLockLeavesAlone(s: System, u: TaskId, t: TaskId)
    requires Invariant(s) && t in s.tasks && s.tasks[t].Holds() && Enabled(s, TryLock(u))
    ensures LeavesAlone(s, DoTryLock(s, u), t)
  {
  }

  lemma SleeperLeavesAlone(s: System, step: Step, t: TaskId)
    requires Invariant(s) && t in s.tasks && s.tasks[t].Holds() && Enabled(s, step) && (step.Evict? || step.PollPanel?)
    ensures LeavesAlone(s, Do(s, step), t)
  {
  }

  /** While a task holds a panel's lock, only its own work changes task or panel. */
  lemma OthersLeaveAlone(s: System, step: Step, t: TaskId)
    requires Invariant(s) && t in s.tasks && s.tasks[t].Holds() && !(step.Work? && step.task == t)
    ensures LeavesAlone(s, Do(s, step), t)
  {
    if Enabled(s, step) {
      match step
      case Work(u, io) => OtherWorkLeavesAlone(s, u, io, t);
      case Lookup(_, _, _, _) => LookupLeavesAlone(s, step, t);
      case TryLock(u) => TryLockLeavesAlone(s, u, t);
      case Evict(_, _, _) => SleeperLeavesAlone(s, step, t);
      case PollPanel(_, _) => SleeperLeavesAlone(s, step, t);
      case _ =>
    }
  }

  /** One step of the holder's own work. */
  lemma OwnWork(s: System, t: TaskId, io: Io)
    requires Invariant(s) && t in s.tasks && s.tasks[t].Holds()
    ensures var h := s.tasks[t].phase.handle;
      var s', w := Do(s, Work(t, io)), WorkOn(s.tasks[t], s.heap[h].panel, s.stopping, io);
      && h in s'.heap && s'.heap[h].panel == w.panel
      && (w.phase.Done? ==> s'.heap[h].holder.None?)
      && (!w.phase.Done? ==> t in s'.tasks && s'.tasks[t] == s.tasks[t].(phase := w.phase) && s'.tasks[t].Holds()
                             && w.phase.handle == h)
  {
    WorkFits(s.tasks[t], s.heap[s.tasks[t].phase.handle].panel, s.stopping, io);
  }

  /** The task keeps the panel's lock through all these steps. */
  ghost predicate KeepsLock(s: System, t: TaskId, steps: seq<Step>)
    requires Invariant(s)
    decreases |steps|
  {
    && t in s.tasks && s.tasks[t].Holds()
    && (steps == [] || (StepKeeps(s, steps[0]); KeepsLock(Do(s, steps[0]), t, steps[1..])))
  }

  /** Behind these steps, the task's next one is its last under the lock. */
  ghost predicate LetsGoAfter(s: System, t: TaskId, steps: seq<Step>, last: Io)
    requires Invariant(s)
  {
    var s' := Run(s, steps);
    && t in s'.tasks && s'.tasks[t].Holds()
    && WorkOn(s'.tasks[t], s'.heap[s'.tasks[t].phase.handle].panel, s'.stopping, last).phase.Done?
  }

  lemma {:induction false} KeepsLockToTheEnd(s: System, t: TaskId, steps: seq<Step>)
    requires Invariant(s) && KeepsLock(s, t, steps)
    ensures t in Run(s, steps).tasks && Run(s, steps).tasks[t].Holds()
    decreases |steps|
  {
    if steps != [] {
      StepKeeps(s, steps[0]);
      KeepsLockToTheEnd(Do(s, steps[0]), t, steps[1..]);
    }
  }

  lemma LetsGoNow(s: System, t: TaskId, last: Io) returns (turns: Turns)
    requires Invariant(s) && t in s.tasks && s.tasks[t].Holds()
    requires WorkOn(s.tasks[t], s.heap[s.tasks[t].phase.handle].panel, s.stopping, last).phase.Done?
    ensures var h := s.tasks[t].phase.handle;
      var s' := Do(s, Work(t, last));
      h in s'.heap && s'.heap[h].panel == LetGo(s.tasks[t], s.heap[h].panel, turns)
  {
    var turn := Turn(s.stopping, last);
    turns := Turns(turn, turn, turn, turn, turn, turn);
    OwnWork(s, t, last);
  }

  lemma WithChangesOne(rest: Turns, k: nat, turn: Turn)
    requires 1 <= k <= 6
    ensures rest.With(k, turn).Of(k) == turn
    ensures forall j :: 1 <= j < k ==> rest.With(k, turn).Of(j) == rest.Of(j)
  {
  }

  lemma WorkMovesAhead(task: Task, p: PanelState, turn: Turn)
    requires task.Holds() && Fits(task, p)
    ensures var w := WorkOn(task, p, turn.stopping, turn.io);
      !w.phase.Done? ==>
        task.(phase := w.phase).Holds() && Fits(task.(phase := w.phase), w.panel) && Ahead(w.phase) < Ahead(task.phase)
  {
    WorkFits(task, p, turn.stopping, turn.io);
  }

  /** One turn, and then the others. */
  lemma LetGoOnce(task: Task, p: PanelState, turns: Turns)
    requires task.Holds() && Fits(task, p)
    ensures var turn := turns.At(task.phase);
      var w := WorkOn(task, p, turn.stopping, turn.io);
      !w.phase.Done? ==>
        task.(phase := w.phase).Holds() && Fits(task.(phase := w.phase), w.panel)
        && LetGo(task, p, turns) == LetGo(task.(phase := w.phase), w.panel, turns)
  {
    WorkMovesAhead(task, p, turns.At(task.phase));
  }

  /** A turn before the rest of the turns. */
  lemma TurnFirst(task: Task, p: PanelState, turn: Turn, rest: Turns)
    requires task.Holds() && Fits(task, p)
    ensures var w := WorkOn(task, p, turn.stopping, turn.io);
      !w.phase.Done? ==>
        task.(phase := w.phase).Holds() && Fits(task.(phase := w.phase), w.panel)
        && LetGo(task, p, rest.With(Ahead(task.phase), turn)) == LetGo(task.(phase := w.phase), w.panel, rest)
  {
    var turns := rest.With(Ahead(task.phase), turn);
    WithChangesOne(rest, Ahead(task.phase), turn);
    LetGoOnce(task, p, turns);
    WorkMovesAhead(task, p, turn);
    var w := WorkOn(task, p, turn.stopping, turn.io);
    if !w.phase.Done? {
      LetGoLooksAhead(task.(phase := w.phase), w.panel, turns, rest);
    }
  }

  /** From where it stands until it lets go, whatever else runs, the task does one piece of work. */
  lemma {:induction false} WorkIsOnePiece(s: System, t: TaskId, steps: seq<Step>, last: Io) returns (turns: Turns)
    requires Invariant(s) && KeepsLock(s, t, steps) && LetsGoAfter(s, t, steps, last)
    ensures var h := s.tasks[t].phase.handle;
      var s' := Do(Run(s, steps), Work(t, last));
      h in s.heap && h in s'.heap && Fits(s.tasks[t], s.heap[h].panel)
      && s'.heap[h].panel == LetGo(s.tasks[t], s.heap[h].panel, turns)
    decreases |steps|
  {
    var h := s.tasks[t].phase.handle;
    assert CellFits(s.tasks, s.heap[h]);
    if steps == [] {
      turns := LetsGoNow(s, t, last);
    } else {
      var step, next := steps[0], Do(s, steps[0]);
      StepKeeps(s, step);
      turns := WorkIsOnePiece(next, t, steps[1..], last);
      if step.Work? && step.task == t {
        OwnWork(s, t, step.io);
        TurnFirst(s.tasks[t], s.heap[h].panel, Turn(s.stopping, step.io), turns);
        turns := turns.With(Ahead(s.tasks[t].phase), Turn(s.stopping, step.io));
      } else {
        OthersLeaveAlone(s, step, t);
      }
    }
  }

  /**
   Every routing job, from the moment it has the panel's lock to the moment it gives it
   back, with anything else in between, changes the panel as one whole routing job.
   */
  lemma JobsAreOnePiece(before: seq<Step>, t: TaskId, steps: seq<Step>, last: Io)
    returns (seen: JobView, io: JobIo)
    requires KeepsLock(After(before), t, steps) && LetsGoAfter(After(before), t, steps, last)
    requires After(before).tasks[t].Job? && After(before).tasks[t].phase.Locked?
    ensures var s := After(before);
      var task, h, s' := s.tasks[t], s.tasks[t].phase.handle, After(before + steps + [Work(t, last)]);
      && h in s.heap && h in s'.heap
      && s'.heap[h].panel == RouteJob(s.heap[h].panel, task.level, task.frame, seen, io)
  {
    var s := After(before);
    var turns := WorkIsOnePiece(s, t, steps, last);
    seen, io := SeenBy(turns), MetBy(turns);
    StepsAreRouteJob(s.tasks[t], s.heap[s.tasks[t].phase.handle].panel, turns);
    RunsOn(before, steps, Work(t, last));
  }

  /** And so does every identification, as one whole identification. */
  lemma IdentificationsAreOnePiece(before: seq<Step>, t: TaskId, steps: seq<Step>, last: Io)
    returns (flash: byte, bits: Bits, latest: Picture, level: Option<byte>, seen: IdentifyView, io: IdentifyIo)
    requires KeepsLock(After(before), t, steps) && LetsGoAfter(After(before), t, steps, last)
    requires After(before).tasks[t].Identify? && After(before).tasks[t].phase.Locked?
    ensures var s := After(before);
      var h, s' := s.tasks[t].phase.handle, After(before + steps + [Work(t, last)]);
      && h in s.heap && h in s'.heap
      && s'.heap[h].panel == Identification(s.heap[h].panel, flash, bits, latest, level, seen, io)
  {
    var s := After(before);
    var turns := WorkIsOnePiece(s, t, steps, last);
    flash, bits, latest := turns.branch.io.flash, turns.branch.io.bits, turns.paint.io.frame;
    level, seen, io := turns.level.io.level, ViewOf(turns), IoOf(turns);
    StepsAreIdentification(s.tasks[t], s.heap[s.tasks[t].phase.handle].panel, turns);
    RunsOn(before, steps, Work(t, last));
  }

  lemma RunsOn(before: seq<Step>, steps: seq<Step>, step: Step)
    ensures After(before + steps + [step]) == Do(Run(After(before), steps), step)
  {
    InitialHolds();
    RunAppend(INITIAL, before + steps, [step]);
    RunAppend(INITIAL, before, steps);
    var s := Run(After(before), steps);
    StepKeeps(s, step);
    assert Run(s, [step]) == Run(Do(s, step), []);
  }
}
