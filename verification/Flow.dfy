/** One frame in flight: the desktop bridge's acknowledgements and the tasks that wait for them. */
module Flow {
  import opened Basics
  import opened Configuration

  type WaitId = nat
  type TaskId = nat

  /** How a one-shot channel ended: released by a send, dropped by its sender, abandoned by its receiver. */
  datatype Outcome = Open | Released | Dropped | Abandoned

  datatype Wait = Wait(subscription: string, sequence: u32, outcome: Outcome)

  /** `waits` lists every channel ever made; `pending` holds the sending half of one. */
  datatype FlowState = FlowState(subscription: string, pending: Option<WaitId>, waits: seq<Wait>)

  const IDLE := FlowState("", None, [])

  ghost predicate Fits(f: FlowState) {
    && (f.pending.Some? ==>
          f.pending.value < |f.waits| && f.waits[f.pending.value].subscription == f.subscription
          && (f.waits[f.pending.value].outcome.Open? || f.waits[f.pending.value].outcome.Abandoned?))
    && forall w :: 0 <= w < |f.waits| && f.waits[w].outcome.Open? ==> f.pending == Some(w)
  }

  /** The sending half goes away: an open wait ends with `outcome`, an abandoned one stays. */
  function Ended(f: FlowState, w: WaitId, outcome: Outcome): seq<Wait>
    requires w < |f.waits|
  {
    if f.waits[w].outcome.Open? then f.waits[w := f.waits[w].(outcome := outcome)] else f.waits
  }

  function Replaced(f: FlowState, subscription: string): FlowState
    requires Fits(f)
  {
    FlowState(subscription, None, if f.pending.Some? then Ended(f, f.pending.value, Dropped) else f.waits)
  }

  predicate Arms(f: FlowState, subscription: string) {
    subscription == f.subscription && f.pending.None?
  }

  function Armed(f: FlowState, subscription: string, sequence: u32): FlowState {
    if Arms(f, subscription)
    then f.(pending := Some(|f.waits|), waits := f.waits + [Wait(subscription, sequence, Open)])
    else f
  }

  predicate Matches(f: FlowState, subscription: string, sequence: u32)
    requires Fits(f)
  {
    f.subscription == subscription && f.pending.Some? && f.waits[f.pending.value].sequence == sequence
  }

  function Acknowledged(f: FlowState, subscription: string, sequence: u32): FlowState
    requires Fits(f)
  {
    if Matches(f, subscription, sequence)
    then f.(pending := None, waits := Ended(f, f.pending.value, Released)) else f
  }

  function GivenUp(f: FlowState, w: WaitId): FlowState {
    if w < |f.waits| then f.(waits := Ended(f, w, Abandoned)) else f
  }

  // ------------------------------------------------------------------ the class

  class Acknowledgements {
    var subscription: string
    var pending: Option<(u32, WaitId)>
    /** Every channel made so far. */
    var waits: seq<Wait>

    ghost predicate Valid()
      reads this
    {
      && Fits(View())
      && (pending.Some? ==> pending.value.1 < |waits| && waits[pending.value.1].sequence == pending.value.0)
    }

    function View(): FlowState
      reads this
    {
      FlowState(subscription, if pending.Some? then Some(pending.value.1) else None, waits)
    }

    constructor ()
      ensures Valid() && View() == IDLE
    {
      subscription, pending, waits := "", None, [];
    }

    method Replace(newer: string)
      requires Valid()
      modifies this
      ensures Valid() && View() == Replaced(old(View()), newer)
    {
      waits := if pending.Some? then Ended(View(), pending.value.1, Dropped) else waits;
      subscription := newer;
      pending := None;
    }

    method Arm(own: string, sequence: u32) returns (wait: Option<WaitId>)
      requires Valid()
      modifies this
      ensures Valid() && View() == Armed(old(View()), own, sequence)
      ensures wait == if Arms(old(View()), own) then Some(|old(waits)|) else None
    {
      if own != subscription || pending.Some? {
        return None;
      }
      wait := Some(|waits|);
      pending := Some((sequence, |waits|));
      waits := waits + [Wait(own, sequence, Open)];
    }

    method Acknowledge(own: string, sequence: u32)
      requires Valid()
      modifies this
      ensures Valid() && View() == Acknowledged(old(View()), own, sequence)
    {
      if subscription == own && pending.Some? && pending.value.0 == sequence {
        waits := Ended(View(), pending.value.1, Released);
        pending := None;
      }
    }
  }

  // ----------------------------------------------------------------- the bridge

  /** A task that forwards frames for one subscription. */
  datatype Phase = Fetching | Sending(wait: WaitId) | Waiting(wait: WaitId) | Finished {
    function Held(): Option<WaitId> {
      match this
      case Sending(w) => Some(w)
      case Waiting(w) => Some(w)
      case _ => None
    }
  }

  datatype Task = Task(subscription: string, phase: Phase)

  /** `sent` lists the frames handed to the user interface, by their waits. */
  datatype Bridge = Bridge(flow: FlowState, tasks: map<TaskId, Task>, sent: seq<WaitId>)

  datatype Step =
    | Subscribe(task: TaskId, subscription: string)
    | Arm(task: TaskId, sequence: u32)
    | Send(task: TaskId)
    | Resume(task: TaskId)   // the wait has ended
    | Stop(task: TaskId)     // timed out, failed or aborted
    | Acknowledge(subscription: string, sequence: u32)

  const START := Bridge(IDLE, map[], [])

  function DoTask(b: Bridge, step: Step): Bridge
    requires Fits(b.flow) && !step.Subscribe? && !step.Acknowledge? && step.task in b.tasks
  {
    var t := step.task;
    var task := b.tasks[t];
    match step
    case Arm(_, sequence) =>
      if !task.phase.Fetching? then b
      else
        b.(flow := Armed(b.flow, task.subscription, sequence),
           tasks := b.tasks[t := task.(phase :=
             if Arms(b.flow, task.subscription) then Sending(|b.flow.waits|) else Finished)])
    case Send(_) =>
      if !task.phase.Sending? then b
      else b.(sent := b.sent + [task.phase.wait], tasks := b.tasks[t := task.(phase := Waiting(task.phase.wait))])
    case Resume(_) =>
      if task.phase.Waiting? && task.phase.wait < |b.flow.waits| then
        match b.flow.waits[task.phase.wait].outcome
        case Released => b.(tasks := b.tasks[t := task.(phase := Fetching)])
        case Dropped => b.(tasks := b.tasks[t := task.(phase := Finished)])
        case _ => b
      else b
    case _ =>
      b.(flow := if task.phase.Held().Some? then GivenUp(b.flow, task.phase.Held().value) else b.flow,
         tasks := b.tasks[t := task.(phase := Finished)])
  }

  /** One step; superseded tasks may still take steps before their abort is noticed. */
  function Do(b: Bridge, step: Step): Bridge
    requires Fits(b.flow)
  {
    match step
    case Subscribe(t, subscription) =>
      if t in b.tasks then b
      else b.(flow := Replaced(b.flow, subscription), tasks := b.tasks[t := Task(subscription, Fetching)])
    case Acknowledge(subscription, sequence) => b.(flow := Acknowledged(b.flow, subscription, sequence))
    case _ => if step.task in b.tasks then DoTask(b, step) else b
  }

  lemma StepFits(b: Bridge, step: Step)
    requires Fits(b.flow)
    ensures Fits(Do(b, step).flow)
  {
  }

  function Run(b: Bridge, steps: seq<Step>): (b': Bridge)
    requires Fits(b.flow)
    ensures Fits(b'.flow)
    decreases |steps|
  {
    if steps == [] then b
    else
      StepFits(b, steps[0]);
      Run(Do(b, steps[0]), steps[1..])
  }

  // ---------------------------------------------------------------- the promises

  /** Tasks hold waits of their own subscription, one each. */
  ghost predicate TasksFit(b: Bridge) {
    && (forall t :: t in b.tasks && b.tasks[t].phase.Held().Some? ==>
          var w := b.tasks[t].phase.Held().value;
          w < |b.flow.waits| && b.flow.waits[w].subscription == b.tasks[t].subscription)
    && (forall t, u :: (t in b.tasks && u in b.tasks && t != u && b.tasks[t].phase.Held().Some?) ==>
          b.tasks[t].phase.Held() != b.tasks[u].phase.Held())
  }

  /** No frame was sent twice, and none before its task came to it. */
  ghost predicate SentFits(b: Bridge) {
    && (forall i :: 0 <= i < |b.sent| ==> b.sent[i] < |b.flow.waits|)
    && (forall t, i :: (t in b.tasks && b.tasks[t].phase.Sending? && 0 <= i < |b.sent|) ==>
          b.sent[i] != b.tasks[t].phase.wait)
    && (forall i, j :: 0 <= i < j < |b.sent| ==> b.sent[i] != b.sent[j])
  }

  ghost predicate Orderly(b: Bridge) {
    Fits(b.flow) && TasksFit(b) && SentFits(b)
  }

  lemma TaskStepFits(b: Bridge, step: Step)
    requires Orderly(b) && !step.Subscribe? && !step.Acknowledge? && step.task in b.tasks
    ensures TasksFit(DoTask(b, step))
  {
  }

  lemma TaskStepSends(b: Bridge, step: Step)
    requires Orderly(b) && !step.Subscribe? && !step.Acknowledge? && step.task in b.tasks
    ensures SentFits(DoTask(b, step))
  {
  }

  lemma OtherStepIsOrderly(b: Bridge, step: Step)
    requires Orderly(b) && (step.Subscribe? || step.Acknowledge?)
    ensures TasksFit(Do(b, step)) && SentFits(Do(b, step))
  {
  }

  lemma StepIsOrderly(b: Bridge, step: Step)
    requires Orderly(b)
    ensures Orderly(Do(b, step))
  {
    StepFits(b, step);
    if step.Subscribe? || step.Acknowledge? {
      OtherStepIsOrderly(b, step);
    } else if step.task in b.tasks {
      TaskStepFits(b, step);
      TaskStepSends(b, step);
    }
  }

  lemma {:induction false} RunIsOrderly(b: Bridge, steps: seq<Step>)
    requires Orderly(b)
    ensures Orderly(Run(b, steps))
    decreases |steps|
  {
    if steps != [] {
      StepIsOrderly(b, steps[0]);
      RunIsOrderly(Do(b, steps[0]), steps[1..]);
    }
  }

  /**
   At most one frame in flight: of all frames ever handed to the user interface, at
   most one still waits for its acknowledgement, and it belongs to the subscription
   in force. All others were acknowledged, superseded or given up.
   */
  lemma OneFrameInFlight(steps: seq<Step>, i: nat, j: nat)
    requires var b := Run(START, steps);
      i < |b.sent| && j < |b.sent|
    ensures var b := Run(START, steps);
      && b.sent[i] < |b.flow.waits| && b.sent[j] < |b.flow.waits|
      && (b.flow.waits[b.sent[i]].outcome.Open? ==> b.flow.waits[b.sent[i]].subscription == b.flow.subscription)
      && (b.flow.waits[b.sent[i]].outcome.Open? && b.flow.waits[b.sent[j]].outcome.Open? ==> i == j)
  {
    RunIsOrderly(START, steps);
  }

  /** A step neither renames nor forgets a wait, and releases it only by its own acknowledgement. */
  lemma StepKeepsWait(b: Bridge, step: Step, w: WaitId)
    requires Fits(b.flow) && w < |b.flow.waits|
    ensures var waits := Do(b, step).flow.waits;
      && w < |waits|
      && waits[w].subscription == b.flow.waits[w].subscription && waits[w].sequence == b.flow.waits[w].sequence
      && (waits[w].outcome.Released? ==>
            b.flow.waits[w].outcome.Released?
            || step == Acknowledge(b.flow.waits[w].subscription, b.flow.waits[w].sequence))
  {
  }

  /**
   A wait is released only by an acknowledgement of its own subscription and
   sequence: whatever else happens in between, stale acknowledgements included.
   */
  lemma {:induction false} ReleasedByOwnAcknowledgement(b: Bridge, steps: seq<Step>, w: WaitId)
    requires Fits(b.flow) && w < |b.flow.waits| && !b.flow.waits[w].outcome.Released?
    ensures w < |Run(b, steps).flow.waits|
    ensures Run(b, steps).flow.waits[w].outcome.Released? ==>
      Acknowledge(b.flow.waits[w].subscription, b.flow.waits[w].sequence) in steps
    decreases |steps|
  {
    if steps != [] {
      StepKeepsWait(b, steps[0], w);
      StepFits(b, steps[0]);
      var next := Do(b, steps[0]);
      if next.flow.waits[w].outcome.Released? {
        WaitsGrow(next, steps[1..], w);
      } else {
        ReleasedByOwnAcknowledgement(next, steps[1..], w);
      }
    }
  }

  lemma {:induction false} WaitsGrow(b: Bridge, steps: seq<Step>, w: WaitId)
    requires Fits(b.flow) && w < |b.flow.waits|
    ensures w < |Run(b, steps).flow.waits|
    decreases |steps|
  {
    if steps != [] {
      StepKeepsWait(b, steps[0], w);
      StepFits(b, steps[0]);
      WaitsGrow(Do(b, steps[0]), steps[1..], w);
    }
  }

  /**
   The acknowledgement of an open wait releases it, and no other acknowledgement does
   anything; the task that waited then fetches on and may send its next frame.
   */
  lemma AcknowledgementReleases(steps: seq<Step>, w: WaitId, subscription: string, sequence: u32)
    requires var b := Run(START, steps);
      w < |b.flow.waits| && b.flow.waits[w].outcome.Open?
    ensures var b := Run(START, steps);
      var next := Do(b, Acknowledge(subscription, sequence));
      if subscription == b.flow.waits[w].subscription && sequence == b.flow.waits[w].sequence
      then next.flow.waits[w].outcome.Released? && next.flow.pending.None? && next.tasks == b.tasks
      else next == b
  {
    RunIsOrderly(START, steps);
  }

  /** A task whose wait was released fetches on, and arms its next frame if it is not superseded by then. */
  lemma ReleasedTaskGoesOn(b: Bridge, t: TaskId, sequence: u32)
    requires Orderly(b) && t in b.tasks && b.tasks[t].phase.Waiting?
    requires b.flow.waits[b.tasks[t].phase.wait].outcome.Released?
    ensures var next := Do(b, Resume(t));
      && next == b.(tasks := b.tasks[t := b.tasks[t].(phase := Fetching)])
      && (b.flow.pending.None? && b.flow.subscription == b.tasks[t].subscription ==>
            var armed := Do(next, Arm(t, sequence));
            && armed.tasks[t].phase == Sending(|b.flow.waits|)
            && armed.flow.waits == b.flow.waits + [Wait(b.tasks[t].subscription, sequence, Open)])
  {
  }
}
