/**
 Ownership of the local endpoint: any number of daemons binding, serving, dropping
 and crashing in any interleaving, one system call a step, next to listeners that
 know nothing of the lock file and only ever bind a free path.
 */
module Endpoint {
  import opened Basics

  type Pid = nat
  type SocketId = nat

  datatype Owner = Daemon(pid: Pid) | Stranger

  /** A kernel socket. Only a listening one accepts a connection; the others refuse. */
  datatype Phase = Bound | Listening | Dead

  datatype Socket = Socket(owner: Owner, phase: Phase, isPrivate: bool)

  /** What the endpoint's path names. */
  datatype Entry = Nothing | Names(id: SocketId) | OtherFile

  /** How far a daemon is in `bind`, and then in dropping its listener. */
  datatype Stage =
    | Locked                  // holds the lock, about to look at the path
    | Found                   // a private socket is there, about to connect to it
    | Refused                 // the connection was refused, about to remove the path
    | Clear                   // the path is free, about to bind
    | Open(id: SocketId)      // bound, about to listen
    | Listens(id: SocketId)   // about to set the mode
    | Secured(id: SocketId)   // about to read the identity back
    | Serving(id: SocketId, identity: SocketId)
    | Unlinking(id: SocketId) // dropping, the path still is its own socket
    | Closing(id: SocketId)   // dropping, about to close the socket
    | Unlocking               // about to release the lock
    | Dying(left: Option<SocketId>)  // crashed or gave up: the lock is gone, the socket may still be open
  {
    predicate HasSocket() {
      Open? || Listens? || Secured? || Serving? || Unlinking? || Closing?
    }

    function Held(): Option<SocketId> {
      if HasSocket() then Some(id) else None
    }
  }

  datatype World = World(path: Entry, sockets: map<SocketId, Socket>, lock: Option<Pid>, daemons: map<Pid, Stage>)

  datatype Step =
    | Begin(pid: Pid)
    | Next(pid: Pid, unused: SocketId)  // the daemon's next system call
    | Leave(pid: Pid)                   // a serving daemon starts to drop its listener
    | Crash(pid: Pid)                   // at any point
    | Reap(pid: Pid)                    // the kernel closes what a crashed daemon left open
    | StrangerBinds(unused: SocketId)
    | StrangerUnlinks
    | StrangerCloses(id: SocketId)

  function Kill(sockets: map<SocketId, Socket>, id: SocketId): map<SocketId, Socket>
    requires id in sockets
  {
    sockets[id := sockets[id].(phase := Dead)]
  }

  /** The daemon returns an error or crashes: the lock goes first. */
  function GiveUp(w: World, p: Pid): World
    requires p in w.daemons
  {
    w.(lock := None, daemons := w.daemons[p := Dying(w.daemons[p].Held())])
  }

  function At(w: World, p: Pid, stage: Stage): World {
    w.(daemons := w.daemons[p := stage])
  }

  /** What a connection to the path meets, or a look at its type and mode. */
  predicate PrivateSocket(w: World) {
    w.path.Names? && w.path.id in w.sockets && w.sockets[w.path.id].isPrivate
  }

  predicate Refuses(w: World) {
    w.path.Names? && w.path.id in w.sockets && !w.sockets[w.path.id].phase.Listening?
  }

  function DoBind(w: World, p: Pid, unused: SocketId): World
    requires p in w.daemons
  {
    match w.daemons[p]
    case Locked =>
      if w.path.Nothing? then At(w, p, Clear) else if PrivateSocket(w) then At(w, p, Found) else GiveUp(w, p)
    case Found => if Refuses(w) then At(w, p, Refused) else GiveUp(w, p)
    case Refused => if w.path.Nothing? then GiveUp(w, p) else At(w, p, Clear).(path := Nothing)
    case Clear =>
      if w.path.Nothing? && unused !in w.sockets then
        At(w, p, Open(unused)).(path := Names(unused), sockets := w.sockets[unused := Socket(Daemon(p), Bound, false)])
      else GiveUp(w, p)
    case Open(id) =>
      if id in w.sockets then At(w, p, Listens(id)).(sockets := w.sockets[id := w.sockets[id].(phase := Listening)])
      else w
    case Listens(id) =>
      if w.path.Names? && w.path.id in w.sockets then
        At(w, p, Secured(id)).(sockets := w.sockets[w.path.id := w.sockets[w.path.id].(isPrivate := true)])
      else GiveUp(w, p)
    case Secured(id) => if PrivateSocket(w) then At(w, p, Serving(id, w.path.id)) else GiveUp(w, p)
    case _ => w
  }

  function DoDrop(w: World, p: Pid): World
    requires p in w.daemons
  {
    match w.daemons[p]
    case Unlinking(id) => At(w, p, Closing(id)).(path := Nothing)
    case Closing(id) => if id in w.sockets then At(w, p, Unlocking).(sockets := Kill(w.sockets, id)) else w
    case Unlocking => w.(lock := None, daemons := w.daemons - {p})
    case _ => w
  }

  function DoDaemon(w: World, step: Step): World
    requires step.Next? || step.Leave? || step.Crash? || step.Reap?
    requires step.pid in w.daemons
  {
    var stage := w.daemons[step.pid];
    match step
    case Next(p, unused) =>
      if stage.Unlinking? || stage.Closing? || stage.Unlocking? then DoDrop(w, p) else DoBind(w, p, unused)
    case Leave(p) =>
      if !stage.Serving? then w
      else if w.path == Names(stage.identity) then At(w, p, Unlinking(stage.id)) else At(w, p, Closing(stage.id))
    case Crash(p) => if stage.Dying? then w else GiveUp(w, p)
    case Reap(p) =>
      if !stage.Dying? then w
      else
        w.(daemons := w.daemons - {p},
           sockets := if stage.left.Some? && stage.left.value in w.sockets
                      then Kill(w.sockets, stage.left.value) else w.sockets)
    case _ => w
  }

  function DoStranger(w: World, step: Step): World {
    match step
    case StrangerBinds(unused) =>
      if w.path.Nothing? && unused !in w.sockets then
        w.(path := Names(unused), sockets := w.sockets[unused := Socket(Stranger, Listening, true)])
      else w
    case StrangerUnlinks =>
      if w.path.Names? && w.path.id in w.sockets && w.sockets[w.path.id] == Socket(Stranger, Listening, true)
      then w.(path := Nothing) else w
    case StrangerCloses(id) =>
      if id in w.sockets && w.sockets[id].owner.Stranger? then w.(sockets := Kill(w.sockets, id)) else w
    case _ => w
  }

  /** One system call of one process; a step out of turn does nothing. */
  function Do(w: World, step: Step): World {
    match step
    case Begin(p) => if p !in w.daemons && w.lock.None? then At(w, p, Locked).(lock := Some(p)) else w
    case StrangerBinds(_) => DoStranger(w, step)
    case StrangerUnlinks => DoStranger(w, step)
    case StrangerCloses(_) => DoStranger(w, step)
    case _ => if step.pid in w.daemons then DoDaemon(w, step) else w
  }

  function Run(w: World, steps: seq<Step>): World
    decreases |steps|
  {
    if steps == [] then w else Run(Do(w, steps[0]), steps[1..])
  }

  /** No daemon yet; the path may hold anything old daemons left behind. */
  ghost predicate Initial(w: World) {
    && w.lock.None? && w.daemons == map[]
    && (w.path.Names? ==> w.path.id in w.sockets)
    && forall id :: id in w.sockets ==>
         w.sockets[id].phase.Dead? || (w.sockets[id].owner.Stranger? && w.sockets[id].phase.Listening?)
  }

  // ------------------------------------------------------------------ invariant

  /** Exactly the lock holder is between taking the lock and giving it back. */
  ghost predicate LockFits(w: World) {
    && (forall p :: p in w.daemons && !w.daemons[p].Dying? ==> w.lock == Some(p))
    && (w.lock.Some? ==> w.lock.value in w.daemons && !w.daemons[w.lock.value].Dying?)
  }

  /** A socket that is not dead belongs to a daemon that still has it. */
  ghost predicate SocketsFit(w: World) {
    && (w.path.Names? ==> w.path.id in w.sockets)
    && (forall p :: p in w.daemons && w.daemons[p].HasSocket() ==>
          w.daemons[p].id in w.sockets && w.sockets[w.daemons[p].id].owner == Daemon(p))
    && (forall p :: p in w.daemons && w.daemons[p].Dying? && w.daemons[p].left.Some? ==>
          w.daemons[p].left.value in w.sockets && w.sockets[w.daemons[p].left.value].owner == Daemon(p))
    && (forall id :: id in w.sockets && w.sockets[id].owner.Daemon? && !w.sockets[id].phase.Dead? ==>
          var p := w.sockets[id].owner.pid;
          p in w.daemons && (w.daemons[p] == Dying(Some(id)) || w.daemons[p].Held() == Some(id)))
    && (forall id :: id in w.sockets && w.sockets[id].owner.Stranger? ==> !w.sockets[id].phase.Bound?)
  }

  /** A dead socket, or one whose daemon crashed or gave up before it listened. */
  predicate Abandoned(w: World, id: SocketId) {
    id in w.sockets
    && (w.sockets[id].phase.Dead?
        || (w.sockets[id].phase.Bound? && w.sockets[id].owner.Daemon?
            && w.sockets[id].owner.pid in w.daemons && w.daemons[w.sockets[id].owner.pid].Dying?))
  }

  /** What a daemon may rely on at each stage. */
  ghost predicate StageFits(w: World, stage: Stage) {
    match stage
    case Refused => w.path.Names? && Abandoned(w, w.path.id)
    case Open(id) => w.path == Names(id) && id in w.sockets && w.sockets[id].phase.Bound?
    case Listens(id) => w.path == Names(id) && Live(w, id)
    case Secured(id) => w.path == Names(id) && Live(w, id)
    case Serving(id, identity) => w.path == Names(id) && identity == id && Live(w, id)
    case Unlinking(id) => w.path == Names(id) && Live(w, id)
    case _ => true
  }

  predicate Live(w: World, id: SocketId) {
    id in w.sockets && w.sockets[id].phase.Listening?
  }

  ghost predicate Invariant(w: World) {
    LockFits(w) && SocketsFit(w) && forall p :: p in w.daemons ==> StageFits(w, w.daemons[p])
  }

  lemma InitialFits(w: World)
    requires Initial(w)
    ensures Invariant(w)
  {
  }

  lemma StrangerKeepsSockets(w: World, step: Step)
    requires SocketsFit(w)
    ensures SocketsFit(DoStranger(w, step))
  {
  }

  lemma StrangerKeeps(w: World, step: Step)
    requires Invariant(w)
    ensures Invariant(DoStranger(w, step))
  {
    StrangerKeepsSockets(w, step);
  }

  lemma GiveUpKeeps(w: World, p: Pid)
    requires Invariant(w) && p in w.daemons && !w.daemons[p].Dying?
    ensures Invariant(GiveUp(w, p))
  {
  }

  lemma BindKeepsLock(w: World, p: Pid, unused: SocketId)
    requires LockFits(w) && p in w.daemons
    ensures LockFits(DoBind(w, p, unused))
  {
  }

  lemma CreateKeepsSockets(w: World, p: Pid, unused: SocketId)
    requires Invariant(w) && p in w.daemons && w.daemons[p].Clear? && unused !in w.sockets
    ensures SocketsFit(At(w, p, Open(unused)).(path := Names(unused),
                                               sockets := w.sockets[unused := Socket(Daemon(p), Bound, false)]))
  {
  }

  /** The daemon's own socket starts to listen, or becomes private. */
  lemma OwnKeepsSockets(w: World, p: Pid, stage: Stage, socket: Socket)
    requires Invariant(w) && p in w.daemons && w.daemons[p].HasSocket() && stage.Held() == Some(w.daemons[p].id)
    requires socket.owner == Daemon(p)
    ensures SocketsFit(At(w, p, stage).(sockets := w.sockets[w.daemons[p].id := socket]))
  {
  }

  /** Stages without a socket. */
  lemma PlainKeepsSockets(w: World, p: Pid, stage: Stage, path: Entry)
    requires Invariant(w) && p in w.daemons && !w.daemons[p].HasSocket() && !w.daemons[p].Dying?
    requires !stage.HasSocket() && !stage.Dying? && (path == w.path || path.Nothing?)
    ensures SocketsFit(At(w, p, stage).(path := path))
  {
  }

  lemma BindKeepsSockets(w: World, p: Pid, unused: SocketId)
    requires Invariant(w) && p in w.daemons
    ensures SocketsFit(DoBind(w, p, unused))
  {
    var w' := DoBind(w, p, unused);
    var stage := w.daemons[p];
    if stage.Dying? || w' == w {
    } else if w' == GiveUp(w, p) {
      GiveUpKeeps(w, p);
    } else {
      match stage
      case Locked => PlainKeepsSockets(w, p, w'.daemons[p], w.path);
      case Found => PlainKeepsSockets(w, p, Refused, w.path);
      case Refused => PlainKeepsSockets(w, p, Clear, Nothing);
      case Clear => CreateKeepsSockets(w, p, unused);
      case Open(id) => OwnKeepsSockets(w, p, Listens(id), w'.sockets[id]);
      case Listens(id) => OwnKeepsSockets(w, p, Secured(id), w'.sockets[id]);
      case Secured(id) =>
        OwnKeepsSockets(w, p, w'.daemons[p], w.sockets[id]);
        assert w.sockets[id := w.sockets[id]] == w.sockets;
      case _ =>
    }
  }

  lemma BindKeepsStage(w: World, p: Pid, unused: SocketId)
    requires Invariant(w) && p in w.daemons
    ensures var w' := DoBind(w, p, unused);
      p in w'.daemons && StageFits(w', w'.daemons[p])
  {
  }

  lemma BindKeeps(w: World, p: Pid, unused: SocketId)
    requires Invariant(w) && p in w.daemons
    ensures Invariant(DoBind(w, p, unused))
  {
    var w' := DoBind(w, p, unused);
    BindKeepsLock(w, p, unused);
    BindKeepsSockets(w, p, unused);
    BindKeepsStage(w, p, unused);
    if !w.daemons[p].Dying? {
      OthersFit(w', p);
    }
  }

  /** All but the lock holder are dying and rely on nothing. */
  lemma OthersFit(w: World, p: Pid)
    requires LockFits(w) && p in w.daemons && StageFits(w, w.daemons[p]) && (w.lock == Some(p) || w.lock.None?)
    ensures forall q :: q in w.daemons ==> StageFits(w, w.daemons[q])
  {
  }

  lemma DropKeepsSockets(w: World, p: Pid)
    requires Invariant(w) && p in w.daemons
    ensures SocketsFit(DoDrop(w, p))
  {
  }

  lemma DropKeeps(w: World, p: Pid)
    requires Invariant(w) && p in w.daemons
    ensures Invariant(DoDrop(w, p))
  {
    DropKeepsSockets(w, p);
  }

  lemma BeginKeeps(w: World, p: Pid)
    requires Invariant(w)
    ensures Invariant(Do(w, Begin(p)))
  {
  }

  lemma LeaveKeeps(w: World, p: Pid)
    requires Invariant(w) && p in w.daemons
    ensures Invariant(DoDaemon(w, Leave(p)))
  {
  }

  lemma ReapKeepsSockets(w: World, p: Pid)
    requires Invariant(w) && p in w.daemons
    ensures SocketsFit(DoDaemon(w, Reap(p)))
  {
  }

  lemma ReapKeepsStage(w: World, p: Pid, q: Pid)
    requires Invariant(w) && p in w.daemons && q in DoDaemon(w, Reap(p)).daemons
    ensures StageFits(DoDaemon(w, Reap(p)), DoDaemon(w, Reap(p)).daemons[q])
  {
    assert StageFits(w, w.daemons[q]);
  }

  lemma ReapKeeps(w: World, p: Pid)
    requires Invariant(w) && p in w.daemons
    ensures Invariant(DoDaemon(w, Reap(p)))
  {
    ReapKeepsSockets(w, p);
    forall q | q in DoDaemon(w, Reap(p)).daemons
      ensures StageFits(DoDaemon(w, Reap(p)), DoDaemon(w, Reap(p)).daemons[q])
    {
      ReapKeepsStage(w, p, q);
    }
  }

  lemma StepKeeps(w: World, step: Step)
    requires Invariant(w)
    ensures Invariant(Do(w, step))
  {
    match step
    case Begin(p) => BeginKeeps(w, p);
    case StrangerBinds(_) => StrangerKeeps(w, step);
    case StrangerUnlinks => StrangerKeeps(w, step);
    case StrangerCloses(_) => StrangerKeeps(w, step);
    case Next(p, unused) =>
      if p in w.daemons {
        DropKeeps(w, p);
        BindKeeps(w, p, unused);
      }
    case Crash(p) => if p in w.daemons && !w.daemons[p].Dying? { GiveUpKeeps(w, p); }
    case Leave(p) => if p in w.daemons { LeaveKeeps(w, p); }
    case Reap(p) => if p in w.daemons { ReapKeeps(w, p); }
  }

  lemma {:induction false} RunKeeps(w: World, steps: seq<Step>)
    requires Invariant(w)
    ensures Invariant(Run(w, steps))
    decreases |steps|
  {
    if steps != [] {
      StepKeeps(w, steps[0]);
      RunKeeps(Do(w, steps[0]), steps[1..]);
    }
  }

  // ------------------------------------------------------------------ exclusion

  /**
   After any run: at most one daemon is past the lock and not dying, so at most one
   serves; and the path names the serving daemon's own listening socket.
   */
  lemma OneServingDaemon(start: World, steps: seq<Step>, p: Pid)
    requires Initial(start)
    requires var w := Run(start, steps); p in w.daemons && w.daemons[p].Serving?
    ensures var w := Run(start, steps);
      && (forall q :: q in w.daemons && !w.daemons[q].Dying? ==> q == p)
      && w.path == Names(w.daemons[p].id) && w.path.id in w.sockets
      && w.sockets[w.path.id].phase.Listening? && w.sockets[w.path.id].owner == Daemon(p)
  {
    InitialFits(start);
    RunKeeps(start, steps);
  }

  /**
   After any run, whichever daemon's step takes a socket's name away: the socket is
   that daemon's own, or it is dead, or its daemon crashed or gave up before it
   listened. Nobody unlinks another process's live socket, a stranger's included.
   */
  lemma OnlyOwnOrAbandonedIsUnlinked(start: World, steps: seq<Step>, step: Step)
    requires Initial(start) && (step.Next? || step.Leave? || step.Crash? || step.Reap? || step.Begin?)
    requires Run(start, steps).path.Names? && Do(Run(start, steps), step).path != Run(start, steps).path
    ensures var w := Run(start, steps);
      w.path.id in w.sockets
      && (w.sockets[w.path.id].owner == Daemon(step.pid) || Abandoned(w, w.path.id))
  {
    InitialFits(start);
    RunKeeps(start, steps);
  }

  // ---------------------------------------------------------------- a start alone

  /** The daemon's next n system calls, with nothing in between. */
  function Nexts(w: World, p: Pid, unused: SocketId, n: nat): World
    decreases n
  {
    if n == 0 then w else Nexts(Do(w, Next(p, unused)), p, unused, n - 1)
  }

  /** The path is free, or names the private socket of nobody any more. */
  predicate Recoverable(w: World) {
    w.path.Nothing? || (PrivateSocket(w) && Refuses(w))
  }

  lemma StaleIsCleared(w: World, p: Pid, unused: SocketId)
    requires p in w.daemons && w.daemons[p].Locked? && PrivateSocket(w) && Refuses(w)
    ensures Nexts(w, p, unused, 3) == At(w, p, Clear).(path := Nothing)
  {
    var found := At(w, p, Found);
    assert Do(w, Next(p, unused)) == found;
    var refused := At(found, p, Refused);
    assert Do(found, Next(p, unused)) == refused;
    assert refused == At(w, p, Refused);
    assert Do(refused, Next(p, unused)) == At(w, p, Clear).(path := Nothing);
    assert Nexts(refused, p, unused, 1) == Nexts(Do(refused, Next(p, unused)), p, unused, 0);
  }

  lemma ClearServes(w: World, p: Pid, unused: SocketId)
    requires p in w.daemons && w.daemons[p].Clear? && w.path.Nothing? && unused !in w.sockets
    ensures var w' := Nexts(w, p, unused, 4);
      && w'.path == Names(unused) && p in w'.daemons && w'.daemons[p] == Serving(unused, unused)
      && unused in w'.sockets && w'.sockets[unused] == Socket(Daemon(p), Listening, true)
  {
    var bound := Do(w, Next(p, unused));
    assert bound.daemons[p] == Open(unused);
    var listens := Do(bound, Next(p, unused));
    assert listens.daemons[p] == Listens(unused) && listens.path == Names(unused);
    var secured := Do(listens, Next(p, unused));
    assert secured.daemons[p] == Secured(unused);
    var serving := Do(secured, Next(p, unused));
    assert Nexts(secured, p, unused, 1) == Nexts(serving, p, unused, 0);
    assert Nexts(listens, p, unused, 2) == serving;
    assert Nexts(bound, p, unused, 3) == serving;
  }

  lemma {:induction false} NextsAppend(w: World, p: Pid, unused: SocketId, m: nat, n: nat)
    ensures Nexts(w, p, unused, m + n) == Nexts(Nexts(w, p, unused, m), p, unused, n)
    decreases m
  {
    if m > 0 {
      NextsAppend(Do(w, Next(p, unused)), p, unused, m - 1, n);
    }
  }

  /**
   A daemon that starts while nobody else holds the lock, and that nobody disturbs,
   serves if the path was free or named an abandoned private socket; otherwise it gives
   up and leaves path and sockets as they are.
   */
  lemma AloneItServesIff(w: World, p: Pid, unused: SocketId)
    requires p !in w.daemons && w.lock.None? && unused !in w.sockets
    ensures var w' := Nexts(Do(w, Begin(p)), p, unused, if w.path.Nothing? then 5 else 7);
      && p in w'.daemons
      && (Recoverable(w) ==>
            && w'.daemons[p] == Serving(unused, unused) && w'.path == Names(unused)
            && unused in w'.sockets && w'.sockets[unused] == Socket(Daemon(p), Listening, true))
      && (!Recoverable(w) ==> w'.daemons[p].Dying? && w'.path == w.path && w'.sockets == w.sockets)
  {
    var begun := Do(w, Begin(p));
    assert begun.daemons[p] == Locked;
    if w.path.Nothing? {
      var clear := Do(begun, Next(p, unused));
      assert Nexts(begun, p, unused, 5) == Nexts(clear, p, unused, 4);
      ClearServes(clear, p, unused);
    } else if Recoverable(w) {
      StaleIsCleared(begun, p, unused);
      NextsAppend(begun, p, unused, 3, 4);
      ClearServes(Nexts(begun, p, unused, 3), p, unused);
    } else {
      GivesUp(begun, p, unused);
    }
  }

  lemma {:induction false} DyingStays(w: World, p: Pid, unused: SocketId, n: nat)
    requires p in w.daemons && w.daemons[p].Dying?
    ensures Nexts(w, p, unused, n) == w
    decreases n
  {
    if n > 0 {
      assert Do(w, Next(p, unused)) == w;
      DyingStays(w, p, unused, n - 1);
    }
  }

  lemma GivesUp(w: World, p: Pid, unused: SocketId)
    requires p in w.daemons && w.daemons[p].Locked? && !Recoverable(w)
    ensures var w' := Nexts(w, p, unused, 7);
      p in w'.daemons && w'.daemons[p].Dying? && w'.path == w.path && w'.sockets == w.sockets
  {
    var first := Do(w, Next(p, unused));
    if first.daemons[p].Dying? {
      DyingStays(first, p, unused, 6);
    } else {
      var second := Do(first, Next(p, unused));
      assert second.daemons[p].Dying?;
      DyingStays(second, p, unused, 5);
      assert Nexts(w, p, unused, 7) == Nexts(first, p, unused, 6) == Nexts(second, p, unused, 5);
    }
  }
}
