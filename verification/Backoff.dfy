/** The supervised event child: respawning with a growing delay. */
module Backoff {
  import opened Basics

  type Duration = t: real | t >= 0.0 witness 0.0

  const RESPAWN_DELAYS: seq<real> := [1.0, 2.0, 5.0, 10.0, 30.0]

  /** A child that lived this long starts the delays over. */
  const HEALTHY_AFTER := 30.0

  datatype Child = NoChild | Alive | Exited

  datatype State = State(child: Child, retryAt: real, failures: nat, spawnedAt: real, died: bool)

  const FRESH := State(NoChild, 0.0, 0, 0.0, false)

  function Delay(failures: nat): (d: real)
    ensures 1.0 <= d <= 30.0
  {
    RESPAWN_DELAYS[Min(failures, 4)]
  }

  /** A start at time zero reads as no start at all. */
  predicate Healthy(s: State, now: real) {
    s.spawnedAt != 0.0 && now - s.spawnedAt >= HEALTHY_AFTER
  }

  function BackedOff(s: State, now: real): State {
    var failures := if Healthy(s, now) then 0 else s.failures;
    s.(child := NoChild, failures := failures + 1, retryAt := now + Delay(failures), died := false)
  }

  /** The state in which the question whether to spawn is asked. */
  function Settled(s: State, now: real): State {
    if !s.child.NoChild? || s.died then BackedOff(s, now) else s
  }

  predicate Tries(s: State, now: real) {
    !s.child.Alive? && now >= Settled(s, now).retryAt
  }

  function Ensured(s: State, now: real, spawns: bool): State {
    if s.child.Alive? then s
    else if !Tries(s, now) then Settled(s, now)
    else if spawns then Settled(s, now).(child := Alive, spawnedAt := now, died := false)
    else Settled(s, now).(child := NoChild, died := true)
  }

  /** Reading the pipe; at its end the child is reaped at once. */
  function Drained(s: State, eof: bool): State {
    if s.child.NoChild? || !eof then s else s.(child := NoChild, died := true)
  }

  // ------------------------------------------------------------------ the class

  class Subscriber {
    var child: Child
    var retryAt: real
    var failures: nat
    var spawnedAt: real
    var died: bool

    ghost function View(): State
      reads this
    {
      State(child, retryAt, failures, spawnedAt, died)
    }

    constructor ()
      ensures View() == FRESH
    {
      child, retryAt, failures, spawnedAt, died := NoChild, 0.0, 0, 0.0, false;
    }

    /** Spawns the child if it is gone and the delay is over; `spawns` is what the system answered. */
    method EnsureAlive(now: real) returns (started: bool, ghost spawns: bool)
      modifies this
      ensures View() == Ensured(old(View()), now, spawns)
      ensures started == (Tries(old(View()), now) && spawns)
    {
      started, spawns := false, false;
      if child.Alive? {
        return;
      }
      if !child.NoChild? || died {
        Reap();
        BackOff(now);
      }
      if now < retryAt {
        return;
      }
      var ok: bool := *;
      spawns := ok;
      if !ok {
        child, died := NoChild, true;
        return;
      }
      child, spawnedAt, died := Alive, now, false;
      started := true;
    }

    /** Drains the pipe; whether a chunk was the end is the system's answer. */
    method ReadEvents() returns (ghost eof: bool)
      modifies this
      ensures View() == Drained(old(View()), eof)
    {
      eof := false;
      if child.NoChild? {
        return;
      }
      var chunks: nat := *;
      while chunks > 0
        invariant View() == old(View()) && !eof
      {
        var end: bool := *;
        if end {
          eof := true;
          died := true;
          Reap();
          return;
        }
        chunks := chunks - 1;
      }
    }

    method BackOff(now: real)
      requires child.NoChild?
      modifies this
      ensures View() == BackedOff(old(View()), now)
    {
      if spawnedAt != 0.0 && now - spawnedAt >= HEALTHY_AFTER {
        failures := 0;
      }
      var delay := RESPAWN_DELAYS[Min(failures, |RESPAWN_DELAYS| - 1)];
      failures := failures + 1;
      retryAt := now + delay;
      died := false;
    }

    method Reap()
      modifies this`child
      ensures child.NoChild?
    {
      child := NoChild;
    }
  }

  /** Failures in a row wait one, two, five and ten seconds, and then thirty each; a healthy life starts over. */
  lemma DelaysInARow(s: State, now: real)
    requires s.child.Exited? || s.died
    ensures var k := if s.spawnedAt != 0.0 && now - s.spawnedAt >= 30.0 then 0 else s.failures;
      && Settled(s, now).failures == k + 1
      && Settled(s, now).retryAt - now
         == if k == 0 then 1.0 else if k == 1 then 2.0 else if k == 2 then 5.0 else if k == 3 then 10.0 else 30.0
  {
  }

  // ----------------------------------------------------------------- whole runs

  /** A started child, with the failures counted at that moment. */
  datatype Spawned = Spawned(at: real, failures: nat)

  datatype Run = Run(state: State, now: real, starts: seq<Spawned>, attempts: nat)

  datatype Step =
    | Poll(elapsed: Duration, spawns: bool)
    | Read(eof: bool)
    | ChildExits

  function Do(r: Run, step: Step): Run {
    match step
    case Poll(elapsed, spawns) =>
      var now := r.now + elapsed;
      var s := Ensured(r.state, now, spawns);
      Run(s, now,
        if Tries(r.state, now) && spawns then r.starts + [Spawned(now, s.failures)] else r.starts,
        if Tries(r.state, now) then r.attempts + 1 else r.attempts)
    case Read(eof) => r.(state := Drained(r.state, eof))
    case ChildExits => if r.state.child.Alive? then r.(state := r.state.(child := Exited)) else r
  }

  function DoAll(r: Run, steps: seq<Step>): Run
    decreases |steps|
  {
    if steps == [] then r else DoAll(Do(r, steps[0]), steps[1..])
  }

  function From(now: real): Run {
    Run(FRESH, now, [], 0)
  }

  /** Two starts in a row: the full delay between them, or the first child's healthy life and more. */
  predicate Apart(a: Spawned, b: Spawned) {
    || b.at >= a.at + 31.0
    || (b.failures > a.failures && b.at >= a.at + Delay(a.failures))
  }

  ghost predicate AllApart(starts: seq<Spawned>) {
    forall i :: 0 < i < |starts| ==> Apart(starts[i - 1], starts[i])
  }

  /** What the state remembers of the last start. */
  ghost predicate Remembers(r: Run) {
    r.starts != [] ==>
      var last := r.starts[|r.starts| - 1];
      var s := r.state;
      && s.spawnedAt == last.at && last.at <= r.now
      && (|| ((!s.child.NoChild? || s.died) && s.failures == last.failures)
          || (s.child.NoChild? && s.failures > last.failures && s.retryAt >= last.at + Delay(last.failures))
          || (s.child.NoChild? && s.retryAt >= last.at + 31.0 && (s.died ==> r.now >= s.retryAt)))
  }

  lemma DelaysGrow(a: nat, b: nat)
    requires a <= b
    ensures Delay(a) <= Delay(b)
  {
  }

  lemma PollRemembers(r: Run, elapsed: Duration, spawns: bool)
    requires Remembers(r) && AllApart(r.starts)
    ensures var r' := Do(r, Poll(elapsed, spawns)); Remembers(r') && AllApart(r'.starts)
  {
    if r.starts != [] && !r.state.child.Alive? {
      var last := r.starts[|r.starts| - 1];
      if r.state.failures >= last.failures {
        DelaysGrow(last.failures, r.state.failures);
      }
    }
  }

  lemma {:induction false} RunRemembers(r: Run, steps: seq<Step>)
    requires Remembers(r) && AllApart(r.starts)
    ensures Remembers(DoAll(r, steps)) && AllApart(DoAll(r, steps).starts)
    decreases |steps|
  {
    if steps != [] {
      if steps[0].Poll? {
        PollRemembers(r, steps[0].elapsed, steps[0].spawns);
      }
      RunRemembers(Do(r, steps[0]), steps[1..]);
    }
  }

  /** Five gaps in a row are longer than half a minute, whatever the first delay was. */
  lemma FiveGaps(a: Spawned, b: Spawned, c: Spawned, d: Spawned, e: Spawned, f: Spawned)
    requires Apart(a, b) && Apart(b, c) && Apart(c, d) && Apart(d, e) && Apart(e, f)
    ensures f.at - a.at > 30.0
  {
    DelaysGrow(0, a.failures);
    if b.failures >= 1 { DelaysGrow(1, b.failures); }
    if c.failures >= 2 { DelaysGrow(2, c.failures); }
    if d.failures >= 3 { DelaysGrow(3, d.failures); }
    if e.failures >= 4 { DelaysGrow(4, e.failures); }
  }

  /**
   In every run with a clock that never goes back, whatever mix of instant deaths,
   failed spawns and long lives occurs: six starts never fall into half a minute.
   */
  lemma AtMostFiveStartsInHalfAMinute(now: real, steps: seq<Step>, i: nat)
    requires i + 5 < |DoAll(From(now), steps).starts|
    ensures var starts := DoAll(From(now), steps).starts;
      starts[i + 5].at - starts[i].at > 30.0
  {
    RunRemembers(From(now), steps);
    var starts := DoAll(From(now), steps).starts;
    assert Apart(starts[i], starts[i + 1]) && Apart(starts[i + 1], starts[i + 2]);
    assert Apart(starts[i + 2], starts[i + 3]) && Apart(starts[i + 3], starts[i + 4]);
    assert Apart(starts[i + 4], starts[i + 5]);
    FiveGaps(starts[i], starts[i + 1], starts[i + 2], starts[i + 3], starts[i + 4], starts[i + 5]);
  }

  // ------------------------------------------------------- failed spawn attempts

  /** A delay is the shortest one exactly for a first failure or behind a healthy last start. */
  lemma ShortestDelayIff(s: State, now: real)
    ensures BackedOff(s, now).retryAt == now + 1.0 <==> s.failures == 0 || Healthy(s, now)
  {
  }

  /** One more second passes: the spawn is tried, and fails again. */
  const AGAIN: seq<Step> := [Poll(0.0, false), Poll(1.0, false)]

  function Seconds(n: nat): seq<Step> {
    if n == 0 then [] else AGAIN + Seconds(n - 1)
  }

  lemma FailsAgain(r: Run)
    requires r.state.child.NoChild? && r.state.died && Healthy(r.state, r.now)
    ensures var r' := Do(Do(r, Poll(0.0, false)), Poll(1.0, false));
      && r'.attempts == r.attempts + 1 && r'.now == r.now + 1.0 && r'.starts == r.starts
      && r'.state.child.NoChild? && r'.state.died && Healthy(r'.state, r'.now)
  {
  }

  lemma {:induction false} FailsForSeconds(r: Run, n: nat)
    requires r.state.child.NoChild? && r.state.died && Healthy(r.state, r.now)
    ensures var r' := DoAll(r, Seconds(n));
      && r'.attempts == r.attempts + n && r'.now == r.now + n as real
      && r'.starts == r.starts
    decreases n
  {
    if n > 0 {
      var one := Do(r, Poll(0.0, false));
      var two := Do(one, Poll(1.0, false));
      FailsAgain(r);
      FailsForSeconds(two, n - 1);
      var steps := Seconds(n);
      assert steps[0] == Poll(0.0, false) && steps[1..][0] == Poll(1.0, false) && steps[1..][1..] == Seconds(n - 1);
    }
  }

  lemma {:induction false} DoAllAppend(r: Run, a: seq<Step>, b: seq<Step>)
    ensures DoAll(r, a + b) == DoAll(DoAll(r, a), b)
    decreases |a|
  {
    if a == [] {
      assert a + b == b;
    } else {
      assert (a + b)[0] == a[0] && (a + b)[1..] == a[1..] + b;
      DoAllAppend(Do(r, a[0]), a[1..], b);
    }
  }

  /** A good start, a child that lives for `lived` and exits, and the first failed spawn. */
  function Downfall(lived: Duration): seq<Step> {
    [Poll(0.0, true), Poll(lived, true), ChildExits, Poll(0.0, false), Poll(1.0, false)]
  }

  lemma FirstStep(r: Run, a: Step, rest: seq<Step>)
    ensures DoAll(r, [a] + rest) == DoAll(Do(r, a), rest)
  {
    assert ([a] + rest)[1..] == rest;
  }

  lemma FiveSteps(r: Run, a: Step, b: Step, c: Step, d: Step, e: Step)
    ensures DoAll(r, [a, b, c, d, e]) == Do(Do(Do(Do(Do(r, a), b), c), d), e)
  {
    FirstStep(r, a, [b, c, d, e]);
    assert [a] + [b, c, d, e] == [a, b, c, d, e];
    FirstStep(Do(r, a), b, [c, d, e]);
    assert [b] + [c, d, e] == [b, c, d, e];
    FirstStep(Do(Do(r, a), b), c, [d, e]);
    assert [c] + [d, e] == [c, d, e];
    FirstStep(Do(Do(Do(r, a), b), c), d, [e]);
    assert [d] + [e] == [d, e];
    FirstStep(Do(Do(Do(Do(r, a), b), c), d), e, []);
    assert [e] + [] == [e];
  }

  lemma DownfallEnds(now: real, lived: Duration)
    requires now > 0.0 && lived >= HEALTHY_AFTER
    ensures var r := DoAll(From(now), Downfall(lived));
      && r.starts == [Spawned(now, 0)] && r.attempts == 2 && r.now == now + lived + 1.0
      && r.state.child.NoChild? && r.state.died && Healthy(r.state, r.now)
  {
    FiveSteps(From(now), Poll(0.0, true), Poll(lived, true), ChildExits, Poll(0.0, false), Poll(1.0, false));
    var started := Do(From(now), Poll(0.0, true));
    assert started.state == State(Alive, 0.0, 0, now, false) && started.starts == [Spawned(now, 0)];
    var alive := Do(started, Poll(lived, true));
    assert alive.state == started.state && alive.now == now + lived && alive.attempts == 1;
    var waiting := Do(Do(alive, ChildExits), Poll(0.0, false));
    assert waiting.state == State(NoChild, alive.now + 1.0, 1, now, false);
  }

  /**
   So the delay does not grow: from a new subscriber, one good start whose child
   lives half a minute, and then spawns that fail, an attempt is made every second
   for as long as they fail, and no child ever starts.
   */
  lemma FailedSpawnsNeverBackOff(now: real, lived: Duration, n: nat)
    requires now > 0.0 && lived >= HEALTHY_AFTER
    ensures var r := DoAll(From(now), Downfall(lived) + Seconds(n));
      && r.attempts == 2 + n && r.now == now + lived + 1.0 + n as real
      && r.starts == [Spawned(now, 0)]
  {
    DownfallEnds(now, lived);
    DoAllAppend(From(now), Downfall(lived), Seconds(n));
    FailsForSeconds(DoAll(From(now), Downfall(lived)), n);
  }
}
