/** Who keeps a TcpConnection alive, across the base loop of a TcpServer and its I/O loops: every interleaving of
    accepting, event handling, functors, and forceClose and shutdown from other threads. */
module Ownership {
  import opened EventLoopThreadPool

  type Id = nat

  /** A queued functor; each holds a shared_ptr to the connection. */
  datatype Job = Establish(id: Id) | RemoveInLoop(id: Id) | Destroy(id: Id) | ForceClose(id: Id)

  /** What a loop's thread is doing. Handling: inside handleEvent, whose guard holds the connection; `hung`: it has
      called handleClose. */
  datatype Activity = Idle | Handling(id: Id, hung: bool) | Executing(job: Job)

  datatype Loop = Loop(queue: seq<Job>, activity: Activity)

  /** Opening: kConnecting. Up: its channel wants events. Closed: kDisconnected, its channel silent but still known
      to the poller. Gone: its channel removed, or no such connection. */
  datatype Phase = Opening | Up | Closed | Gone

  datatype Server = Server(
    threads: nat,
    nextConnId: nat,
    table: set<Id>,             // connections_
    phases: map<Id, Phase>,
    reopened: set<Id>,          // closed before, and kDisconnecting again
    loops: seq<Loop>,
    established: multiset<Id>,  // calls of connectEstablished, handleClose and connectDestroyed
    closed: multiset<Id>,
    destroyed: multiset<Id>,
    failed: bool)               // an assertion did not hold

  function Fresh(threads: nat): Server {
    Server(threads, 1, {}, map[], {}, seq(threads + 1, _ => Loop([], Idle)),
           multiset{}, multiset{}, multiset{}, false)
  }

  function PhaseOf(s: Server, id: Id): Phase {
    if id in s.phases then s.phases[id] else Gone
  }

  /** Connection `id` was given the loop of call `id` of getNextLoop; ids start from 1. */
  function Io(threads: nat, id: Id): LoopId {
    if id == 0 then BASE_LOOP else Nth(threads, id - 1)
  }

  function Home(threads: nat, job: Job): LoopId {
    if job.RemoveInLoop? then BASE_LOOP else Io(threads, job.id)
  }

  lemma HomeExists(threads: nat, job: Job)
    ensures Home(threads, job) <= threads
  {
  }

  datatype Step =
    | Accept                          // newConnection, in the base loop
    | StartEvent(l: LoopId, id: Id)   // handleEvent of the connection's channel takes its guard
    | CloseInEvent(l: LoopId)         // handleClose, from a close or a read callback
    | StartJob(l: LoopId)             // the next functor runs
    | End(l: LoopId)                  // the handler or the functor is over, its reference with it
    | AskForceClose(id: Id)           // forceClose in any thread
    | AskShutdown(id: Id)             // shutdown in any thread

  predicate Wide(s: Server) {
    |s.loops| == s.threads + 1
  }

  /** kConnected or kDisconnecting */
  predicate IsOpen(s: Server, id: Id) {
    PhaseOf(s, id).Up? || id in s.reopened
  }

  // The user has the connection once it has been reported up.
  predicate Usable(s: Server, id: Id) {
    id in s.phases && !s.phases[id].Opening?
  }

  // epoll may have a closed connection in its list. One handleEvent closes at most once:
  // ConnectionLife.OneCloserPerDispatch.
  predicate Can(s: Server, step: Step)
    requires Wide(s)
  {
    match step
    case Accept => s.loops[BASE_LOOP].activity.Idle?
    case StartEvent(l, id) =>
      && l <= s.threads && s.loops[l].activity.Idle? && l == Io(s.threads, id)
      && (PhaseOf(s, id).Up? || PhaseOf(s, id).Closed?)
    case CloseInEvent(l) => l <= s.threads && s.loops[l].activity.Handling? && !s.loops[l].activity.hung
    case StartJob(l) => l <= s.threads && s.loops[l].activity.Idle? && s.loops[l].queue != []
    case End(l) => l <= s.threads
    case AskForceClose(id) => Usable(s, id)
    case AskShutdown(id) => Usable(s, id)
  }

  /** epoll reports no closed connection, and shutdown is called on none. When a closed connection comes to be in epoll
      is the subject of ConnectionCare. */
  predicate Careful(s: Server, step: Step) {
    match step
    case StartEvent(_, id) => PhaseOf(s, id).Up?
    case AskShutdown(id) => PhaseOf(s, id).Up?
    case _ => true
  }

  function Push(s: Server, job: Job): Server
    requires Wide(s)
  {
    HomeExists(s.threads, job);
    var l := Home(s.threads, job);
    s.(loops := s.loops[l := s.loops[l].(queue := s.loops[l].queue + [job])])
  }

  /** connectEstablished, handleClose and connectDestroyed lead to Up, Closed and Gone. */
  function Goes(s: Server, id: Id, phase: Phase): Server {
    var t := s.(phases := s.phases[id := phase]);
    match phase
    case Opening => t
    case Up => t.(established := s.established + multiset{id})
    case Closed => t.(closed := s.closed + multiset{id})
    case Gone => t.(destroyed := s.destroyed + multiset{id})
  }

  function Busy(s: Server, l: LoopId, activity: Activity): Server
    requires l < |s.loops|
  {
    s.(loops := s.loops[l := s.loops[l].(activity := activity)])
  }

  /** removeConnectionInLoop: the erase must find exactly one entry. */
  function Remove(s: Server, id: Id): Server
    requires Wide(s)
  {
    Push(s.(failed := s.failed || id !in s.table, table := s.table - {id}), Destroy(id))
  }

  /** handleClose, which asserts that the connection is open, and whose close callback is removeConnection: inline when
      both loops are the same. */
  function Close(s: Server, id: Id): Server
    requires Wide(s)
  {
    var u := s.(failed := s.failed || !IsOpen(s, id), reopened := s.reopened - {id});
    var t := if PhaseOf(s, id).Up? then Goes(u, id, Closed) else u.(closed := u.closed + multiset{id});
    if Io(s.threads, id) == BASE_LOOP then Remove(t, id) else Push(t, RemoveInLoop(id))
  }

  function Execute(s: Server, job: Job): Server
    requires Wide(s)
  {
    match job
    case Establish(id) => Goes(s.(failed := s.failed || !PhaseOf(s, id).Opening?), id, Up)
    case RemoveInLoop(id) => Remove(s, id)
    case Destroy(id) => Goes(s.(failed := s.failed || !PhaseOf(s, id).Closed?), id, Gone)
    case ForceClose(id) => if IsOpen(s, id) then Close(s, id) else s
  }

  // A functor must run in the loop of its connection, and removeConnectionInLoop in the base loop.
  function Take(s: Server, l: LoopId): Server
    requires l < |s.loops| && s.loops[l].queue != []
  {
    var job := s.loops[l].queue[0];
    s.(loops := s.loops[l := Loop(s.loops[l].queue[1..], Executing(job))],
       failed := s.failed || l != Home(s.threads, job))
  }

  function Apply(s: Server, step: Step): Server
    requires Wide(s) && Can(s, step)
  {
    match step
    case Accept =>
      var id := s.nextConnId;
      var t := s.(nextConnId := id + 1, table := s.table + {id});
      if Io(s.threads, id) == BASE_LOOP then Goes(t, id, Up) else Push(Goes(t, id, Opening), Establish(id))
    case StartEvent(l, id) => Busy(s, l, Handling(id, false))
    case CloseInEvent(l) => Close(Busy(s, l, s.loops[l].activity.(hung := true)), s.loops[l].activity.id)
    case StartJob(l) => Execute(Take(s, l), s.loops[l].queue[0])
    case End(l) => Busy(s, l, Idle)
    case AskForceClose(id) => if IsOpen(s, id) then Push(s, ForceClose(id)) else s
    case AskShutdown(id) => if PhaseOf(s, id).Up? then s else s.(reopened := s.reopened + {id})
  }

  ghost predicate Possible(s: Server, steps: seq<Step>)
    decreases |steps|
  {
    steps != [] ==> Wide(s) && Can(s, steps[0]) && Possible(Apply(s, steps[0]), steps[1..])
  }

  ghost function Exec(s: Server, steps: seq<Step>): Server
    requires Possible(s, steps)
    decreases |steps|
  {
    if steps == [] then s else Exec(Apply(s, steps[0]), steps[1..])
  }

  ghost predicate CarefulRun(s: Server, steps: seq<Step>)
    decreases |steps|
  {
    steps != [] ==>
      Wide(s) && Can(s, steps[0]) && Careful(s, steps[0]) && CarefulRun(Apply(s, steps[0]), steps[1..])
  }

  lemma {:induction false} CarefulIsPossible(s: Server, steps: seq<Step>)
    requires CarefulRun(s, steps)
    ensures Possible(s, steps)
    decreases |steps|
  {
    if steps != [] { CarefulIsPossible(Apply(s, steps[0]), steps[1..]); }
  }

  // ---- holders ----

  ghost predicate Mentions(loop: Loop, id: Id) {
    || (exists job <- loop.queue :: job.id == id)
    || (loop.activity.Handling? && loop.activity.id == id)
    || (loop.activity.Executing? && loop.activity.job.id == id)
  }

  /** A strong reference exists: in the server's table, in a queued functor, or in a running callback. */
  ghost predicate Held(s: Server, id: Id) {
    id in s.table || exists l | 0 <= l < |s.loops| :: Mentions(s.loops[l], id)
  }

  function Queued(s: Server, job: Job): nat
    requires Wide(s)
  {
    HomeExists(s.threads, job);
    multiset(s.loops[Home(s.threads, job)].queue)[job]
  }

  /** One connection's share of the state. */
  datatype View = View(phase: Phase, listed: bool, establish: nat, remove: nat, destroy: nat)

  function ViewOf(s: Server, id: Id): View
    requires Wide(s)
  {
    View(PhaseOf(s, id), id in s.table, Queued(s, Establish(id)), Queued(s, RemoveInLoop(id)), Queued(s, Destroy(id)))
  }

  /** The token passes from Establish to the table, to RemoveInLoop, to Destroy. */
  predicate Regular(v: View) {
    match v.phase
    case Opening => v.listed && v.establish == 1 && v.remove == v.destroy == 0
    case Up => v.listed && v.establish == v.remove == v.destroy == 0
    case Closed => v.establish == 0 &&
      if v.listed then v.remove == 1 && v.destroy == 0 else v.remove == 0 && v.destroy == 1
    case Gone => !v.listed && v.establish == v.remove == v.destroy == 0
  }

  ghost predicate AllRegular(s: Server)
    requires Wide(s)
  {
    forall id: Id :: Regular(ViewOf(s, id))
  }

  ghost predicate Placed(s: Server)
    requires Wide(s)
  {
    forall l, job: Job | 0 <= l <= s.threads && job in s.loops[l].queue ::
      && Home(s.threads, job) == l && job.id in s.phases
      && (job.RemoveInLoop? ==> Io(s.threads, job.id) != BASE_LOOP)
  }

  // A connection is up while its own loop handles it, until it hangs up, and is not destroyed then either.
  ghost predicate HandlersSafe(s: Server)
    requires Wide(s)
  {
    forall l | 0 <= l <= s.threads && s.loops[l].activity.Handling? ::
      var a := s.loops[l].activity;
      Io(s.threads, a.id) == l && if a.hung then PhaseOf(s, a.id).Closed? else PhaseOf(s, a.id).Up?
  }

  // All but the handlers.
  ghost predicate Sound(s: Server) {
    && Wide(s) && !s.failed && s.nextConnId >= 1 && s.reopened == {}
    && (forall id: Id :: id in s.phases <==> 1 <= id < s.nextConnId)
    && AllRegular(s) && Placed(s)
  }

  ghost predicate Inv(s: Server) {
    Sound(s) && HandlersSafe(s)
  }

  // ---- one queue operation at a time ----

  lemma PushCounts(s: Server, job: Job, other: Job)
    requires Wide(s)
    ensures Wide(Push(s, job)) && Queued(Push(s, job), other) == Queued(s, other) + if other == job then 1 else 0
  {
    HomeExists(s.threads, job);
    HomeExists(s.threads, other);
  }

  lemma PushPlaces(s: Server, job: Job)
    requires Wide(s) && Placed(s) && job.id in s.phases
    requires job.RemoveInLoop? ==> Io(s.threads, job.id) != BASE_LOOP
    ensures Placed(Push(s, job))
  {
  }

  lemma TakeCounts(s: Server, l: LoopId, other: Job)
    requires Wide(s) && Placed(s) && l <= s.threads && s.loops[l].queue != []
    ensures Queued(s, other) == Queued(Take(s, l), other) + if other == s.loops[l].queue[0] then 1 else 0
    ensures Home(s.threads, s.loops[l].queue[0]) == l && s.loops[l].queue[0].id in s.phases
  {
    var queue := s.loops[l].queue;
    assert queue == [queue[0]] + queue[1..];
    assert queue[0] in queue;
  }

  lemma TakePlaces(s: Server, l: LoopId)
    requires Wide(s) && Placed(s) && l <= s.threads && s.loops[l].queue != []
    ensures Placed(Take(s, l))
  {
    assert forall job: Job :: job in s.loops[l].queue[1..] ==> job in s.loops[l].queue;
  }

  lemma NotQueued(s: Server, id: Id)
    requires Wide(s) && Placed(s) && id !in s.phases
    ensures Queued(s, Establish(id)) == Queued(s, RemoveInLoop(id)) == Queued(s, Destroy(id)) == 0
  {
    HomeExists(s.threads, Establish(id));
  }

  lemma QueuedIsHeld(s: Server, job: Job)
    requires Wide(s) && Queued(s, job) > 0
    ensures Held(s, job.id)
  {
    HomeExists(s.threads, job);
    var l := Home(s.threads, job);
    assert job in s.loops[l].queue;
    assert Mentions(s.loops[l], job.id);
  }

  lemma PushView(s: Server, job: Job, id: Id)
    requires Wide(s)
    ensures Wide(Push(s, job))
    ensures var v := ViewOf(s, id);
      ViewOf(Push(s, job), id) == v.(
        establish := v.establish + if job == Establish(id) then 1 else 0,
        remove := v.remove + if job == RemoveInLoop(id) then 1 else 0,
        destroy := v.destroy + if job == Destroy(id) then 1 else 0)
  {
    PushCounts(s, job, Establish(id));
    PushCounts(s, job, RemoveInLoop(id));
    PushCounts(s, job, Destroy(id));
  }

  lemma TakeView(s: Server, l: LoopId, id: Id)
    requires Wide(s) && Placed(s) && l <= s.threads && s.loops[l].queue != []
    ensures Wide(Take(s, l))
    ensures var v, job := ViewOf(Take(s, l), id), s.loops[l].queue[0];
      ViewOf(s, id) == v.(
        establish := v.establish + if job == Establish(id) then 1 else 0,
        remove := v.remove + if job == RemoveInLoop(id) then 1 else 0,
        destroy := v.destroy + if job == Destroy(id) then 1 else 0)
  {
    TakeCounts(s, l, Establish(id));
    TakeCounts(s, l, RemoveInLoop(id));
    TakeCounts(s, l, Destroy(id));
  }

  // ---- steps ----

  // All of the invariant but what `id` itself is owed: some part of a step about `id` is under way.
  ghost predicate Else(s: Server, id: Id) {
    && Wide(s) && !s.failed && s.nextConnId >= 1 && s.reopened == {}
    && (forall i: Id :: i in s.phases <==> 1 <= i < s.nextConnId)
    && (forall i: Id | i != id :: Regular(ViewOf(s, i)))
    && Placed(s) && HandlersSafe(s) && id in s.phases
  }

  lemma PushElse(s: Server, job: Job)
    requires Else(s, job.id) && (job.RemoveInLoop? ==> Io(s.threads, job.id) != BASE_LOOP)
    ensures Else(Push(s, job), job.id)
  {
    PushPlaces(s, job);
    forall i: Id | i != job.id ensures Regular(ViewOf(Push(s, job), i)) { PushView(s, job, i); }
  }

  lemma Registered(s: Server, id: Id)
    requires Else(s, id) && Regular(ViewOf(s, id))
    ensures Inv(s)
  {
    assert forall i: Id :: Regular(ViewOf(s, i));
  }

  // removeConnectionInLoop finds its entry, and connectDestroyed takes over as the one that is owed.
  lemma RemoveKeeps(s: Server, id: Id)
    requires Else(s, id) && ViewOf(s, id) == View(Closed, true, 0, 0, 0)
    ensures Inv(Remove(s, id))
  {
    var t := s.(failed := s.failed || id !in s.table, table := s.table - {id});
    assert forall i: Id | i != id :: ViewOf(t, i) == ViewOf(s, i);
    PushElse(t, Destroy(id));
    PushView(t, Destroy(id), id);
    Registered(Remove(s, id), id);
  }

  lemma ClosingElse(s: Server, id: Id)
    requires Sound(s) && PhaseOf(s, id).Up? && HandlersSafe(Goes(s, id, Closed))
    ensures Else(Goes(s, id, Closed), id) && ViewOf(Goes(s, id, Closed), id) == View(Closed, true, 0, 0, 0)
  {
    var t := Goes(s, id, Closed);
    hide HandlersSafe, Queued;
    SameView(s, t, id);
    assert Regular(ViewOf(s, id));
    forall i: Id | i != id ensures Regular(ViewOf(t, i)) {
      SameView(s, t, i);
      assert Regular(ViewOf(s, i));
    }
  }

  lemma CloseKeeps(s: Server, id: Id)
    requires Sound(s) && PhaseOf(s, id).Up? && HandlersSafe(Goes(s, id, Closed))
    ensures Inv(Close(s, id))
  {
    var t := Goes(s, id, Closed);
    assert s.reopened - {id} == s.reopened;
    ClosingElse(s, id);
    hide Else, Sound, ViewOf, HandlersSafe;
    if Io(s.threads, id) == BASE_LOOP {
      RemoveKeeps(t, id);
    } else {
      PushElse(t, RemoveInLoop(id));
      PushView(t, RemoveInLoop(id), id);
      Registered(Close(s, id), id);
    }
  }

  lemma EventCloseKeeps(s: Server, l: LoopId)
    requires Inv(s) && Can(s, CloseInEvent(l))
    ensures Inv(Apply(s, CloseInEvent(l)))
  {
    var id := s.loops[l].activity.id;
    var u := Busy(s, l, s.loops[l].activity.(hung := true));
    BusyIsSound(s, l, s.loops[l].activity.(hung := true));
    HungUp(s, l);
    hide Sound, HandlersSafe, ViewOf;
    CloseKeeps(u, id);
  }

  // The loop that handles the connection is the only one that does.
  lemma HungUp(s: Server, l: LoopId)
    requires Inv(s) && Can(s, CloseInEvent(l))
    ensures var a := s.loops[l].activity;
      HandlersSafe(Goes(Busy(s, l, a.(hung := true)), a.id, Closed)) && PhaseOf(s, a.id).Up?
  {
    hide AllRegular, Placed;
  }

  lemma BusyIsSound(s: Server, l: LoopId, activity: Activity)
    requires Sound(s) && l <= s.threads
    ensures Sound(Busy(s, l, activity))
  {
    var t := Busy(s, l, activity);
    assert forall i | 0 <= i <= s.threads :: t.loops[i].queue == s.loops[i].queue;
    forall i: Id ensures Regular(ViewOf(t, i)) { BusyView(s, l, activity, i); }
    hide ViewOf, Regular;
  }

  lemma BusyView(s: Server, l: LoopId, activity: Activity, id: Id)
    requires Sound(s) && l <= s.threads
    ensures ViewOf(Busy(s, l, activity), id) == ViewOf(s, id) && Regular(ViewOf(s, id))
  {
    HomeExists(s.threads, Establish(id));
    HomeExists(s.threads, RemoveInLoop(id));
  }

  lemma SameView(s: Server, u: Server, id: Id)
    requires Wide(s) && u.loops == s.loops && u.threads == s.threads
    ensures Wide(u) && ViewOf(u, id) == ViewOf(s, id).(phase := PhaseOf(u, id), listed := id in u.table)
    ensures ViewOf(s, id).phase == PhaseOf(s, id) && ViewOf(s, id).listed == (id in s.table)
  {
  }

  lemma RegularAt(s: Server, id: Id)
    requires Inv(s)
    ensures Regular(ViewOf(s, id))
  {
  }

  // A connection enters the table, up at once when it stays in the base loop.
  function Entered(s: Server, phase: Phase): Server {
    Goes(s.(nextConnId := s.nextConnId + 1, table := s.table + {s.nextConnId}), s.nextConnId, phase)
  }

  lemma EnterViews(s: Server, phase: Phase, i: Id)
    requires Inv(s)
    ensures var u := Entered(s, phase);
      Wide(u) && ViewOf(u, i) == if i == s.nextConnId then View(phase, true, 0, 0, 0) else ViewOf(s, i)
  {
    if i == s.nextConnId { NotQueued(s, i); }
    SameView(s, Entered(s, phase), i);
  }

  lemma EnterPlaced(s: Server, phase: Phase)
    requires Inv(s)
    ensures Placed(Entered(s, phase))
  {
    hide AllRegular, HandlersSafe;
  }

  lemma EnterHandlers(s: Server, phase: Phase)
    requires Inv(s)
    ensures HandlersSafe(Entered(s, phase))
  {
    hide AllRegular, Placed;
    var u := Entered(s, phase);
    forall l | 0 <= l <= u.threads && u.loops[l].activity.Handling?
      ensures PhaseOf(u, u.loops[l].activity.id) == PhaseOf(s, s.loops[l].activity.id) {
      assert u.loops[l].activity.id in s.phases;
    }
  }

  lemma EnterElse(s: Server, phase: Phase)
    requires Inv(s) && (phase.Up? || phase.Opening?)
    ensures var u := Entered(s, phase);
      Else(u, s.nextConnId) && ViewOf(u, s.nextConnId) == View(phase, true, 0, 0, 0)
  {
    EnterPlaced(s, phase);
    EnterHandlers(s, phase);
    EnterViews(s, phase, s.nextConnId);
    hide Placed, HandlersSafe, ViewOf;
    forall i: Id | i != s.nextConnId ensures Regular(ViewOf(Entered(s, phase), i)) {
      EnterViews(s, phase, i);
      RegularAt(s, i);
    }
  }

  lemma AcceptKeeps(s: Server)
    requires Inv(s) && Can(s, Accept)
    ensures Inv(Apply(s, Accept))
  {
    hide AllRegular, Placed, HandlersSafe, Queued;
    var id := s.nextConnId;
    var phase := if Io(s.threads, id) == BASE_LOOP then Up else Opening;
    EnterElse(s, phase);
    var u := Entered(s, phase);
    hide Else, Inv, ViewOf, AllRegular, Placed, HandlersSafe, Queued, Nth;
    if phase.Opening? {
      PushElse(u, Establish(id));
      PushView(u, Establish(id), id);
    }
    Registered(Apply(s, Accept), id);
  }

  lemma ActivityKeeps(s: Server, l: LoopId, activity: Activity)
    requires Inv(s) && l <= s.threads
    requires activity.Handling? ==> !activity.hung && Io(s.threads, activity.id) == l && PhaseOf(s, activity.id).Up?
    ensures Inv(Busy(s, l, activity))
  {
    BusyIsSound(s, l, activity);
    hide Sound, ViewOf;
  }

  // A loop takes its next functor: the connection it is about is owed one less.
  lemma TakeElse(s: Server, l: LoopId)
    requires Inv(s) && l <= s.threads && s.loops[l].queue != []
    ensures Else(Take(s, l), s.loops[l].queue[0].id)
  {
    var t, job := Take(s, l), s.loops[l].queue[0];
    TakeCounts(s, l, job);
    TakePlaces(s, l);
    forall i: Id | i != job.id ensures Regular(ViewOf(t, i)) { TakeView(s, l, i); assert Regular(ViewOf(s, i)); }
  }

  lemma StartJobKeeps(s: Server, l: LoopId)
    requires Inv(s) && l <= s.threads && s.loops[l].queue != [] && s.loops[l].activity.Idle?
    ensures Inv(Execute(Take(s, l), s.loops[l].queue[0]))
  {
    var t, job := Take(s, l), s.loops[l].queue[0];
    TakeElse(s, l);
    TakeView(s, l, job.id);
    RegularAt(s, job.id);
    TakeCounts(s, l, job);
    hide Inv, Else, ViewOf, Placed, Take;
    match job
    case RemoveInLoop(id) => RemoveKeeps(t, id);
    case ForceClose(id) =>
      Registered(t, id);
      if PhaseOf(t, id).Up? { ForcedCloseKeeps(s, l); } else { NotOpen(t, id); }
    case Establish(id) => PhaseJobKeeps(s, l);
    case Destroy(id) => PhaseJobKeeps(s, l);
  }

  lemma NotOpen(s: Server, id: Id)
    requires Inv(s) && !PhaseOf(s, id).Up?
    ensures !IsOpen(s, id)
  {
  }

  lemma ForcedCloseKeeps(s: Server, l: LoopId)
    requires Inv(s) && l <= s.threads && s.loops[l].queue != [] && s.loops[l].activity.Idle?
    requires s.loops[l].queue[0].ForceClose? && PhaseOf(s, s.loops[l].queue[0].id).Up?
    ensures Inv(Close(Take(s, l), s.loops[l].queue[0].id))
  {
    var t, job := Take(s, l), s.loops[l].queue[0];
    TakeElse(s, l);
    TakeView(s, l, job.id);
    RegularAt(s, job.id);
    TakeCounts(s, l, job);
    Registered(t, job.id);
    HandlersElsewhere(s, l, Goes(t, job.id, Closed), job.id);
    hide AllRegular, Placed, HandlersSafe, ViewOf;
    CloseKeeps(t, job.id);
  }

  // connectEstablished and connectDestroyed only change the phase.
  lemma PhaseJobKeeps(s: Server, l: LoopId)
    requires Inv(s) && l <= s.threads && s.loops[l].queue != [] && s.loops[l].activity.Idle?
    requires s.loops[l].queue[0].Establish? || s.loops[l].queue[0].Destroy?
    ensures Inv(Execute(Take(s, l), s.loops[l].queue[0]))
  {
    var t, job := Take(s, l), s.loops[l].queue[0];
    var u := Execute(t, job);
    TakeElse(s, l);
    TakeView(s, l, job.id);
    RegularAt(s, job.id);
    TakeCounts(s, l, job);
    HandlersElsewhere(s, l, u, job.id);
    SameView(t, u, job.id);
    hide Inv, Else, AllRegular, HandlersSafe, Queued, Placed, ViewOf;
    PhaseElse(t, u, job.id);
    Registered(u, job.id);
  }

  lemma PhaseElse(t: Server, u: Server, id: Id)
    requires Else(t, id) && Wide(u) && !u.failed && u.loops == t.loops && u.threads == t.threads && u.table == t.table
    requires u.nextConnId == t.nextConnId && u.reopened == t.reopened && HandlersSafe(u)
    requires id in u.phases && u.phases == t.phases[id := u.phases[id]]
    ensures Else(u, id)
  {
    hide HandlersSafe, ViewOf;
    forall i: Id | i != id ensures Regular(ViewOf(u, i)) { SameView(t, u, i); }
  }

  // Only the loop of a connection handles it, and that loop is running a functor now.
  lemma HandlersElsewhere(s: Server, l: LoopId, u: Server, id: Id)
    requires Inv(s) && l <= s.threads && s.loops[l].activity.Idle? && Wide(u)
    requires u.threads == s.threads && Io(s.threads, id) == l
    requires !u.loops[l].activity.Handling?
    requires forall i | 0 <= i <= s.threads && i != l :: u.loops[i] == s.loops[i]
    requires forall i: Id | i != id :: PhaseOf(u, i) == PhaseOf(s, i)
    ensures HandlersSafe(u)
  {
  }

  lemma AskKeeps(s: Server, id: Id)
    requires Inv(s) && PhaseOf(s, id).Up?
    ensures Inv(Push(s, ForceClose(id)))
  {
    PushElse(s, ForceClose(id));
    PushView(s, ForceClose(id), id);
    assert Regular(ViewOf(s, id));
    Registered(Push(s, ForceClose(id)), id);
  }

  lemma StepKeepsInv(s: Server, step: Step)
    requires Inv(s) && Can(s, step) && Careful(s, step)
    ensures Inv(Apply(s, step))
  {
    match step
    case Accept => AcceptKeeps(s);
    case StartEvent(l, id) => ActivityKeeps(s, l, Handling(id, false));
    case CloseInEvent(l) => EventCloseKeeps(s, l);
    case StartJob(l) => StartJobKeeps(s, l);
    case End(l) => ActivityKeeps(s, l, Idle);
    case AskForceClose(id) => if PhaseOf(s, id).Up? { AskKeeps(s, id); } else { NotOpen(s, id); }
    case AskShutdown(id) =>
  }

  lemma FreshHoldsInv(threads: nat)
    ensures Inv(Fresh(threads))
  {
    var s := Fresh(threads);
    forall id: Id ensures Regular(ViewOf(s, id)) { NotQueued(s, id); }
  }

  lemma {:induction false} RunKeepsInv(s: Server, steps: seq<Step>)
    requires Inv(s) && CarefulRun(s, steps)
    ensures Possible(s, steps) && Inv(Exec(s, steps))
    decreases |steps|
  {
    CarefulIsPossible(s, steps);
    if steps != [] {
      StepKeepsInv(s, steps[0]);
      RunKeepsInv(Apply(s, steps[0]), steps[1..]);
    }
  }

  // ---- main results ----

  // Not gone means owed to somebody, and whoever owes it holds it.
  lemma OwedIsHeld(s: Server, id: Id)
    requires Inv(s) && id in s.phases && !PhaseOf(s, id).Gone?
    ensures Held(s, id)
  {
    assert Regular(ViewOf(s, id));
    if id !in s.table { QueuedIsHeld(s, Destroy(id)); }
  }

  /** Over every careful run with any number of I/O loops: no assertion fails, so every erase removes exactly one entry
      and every functor runs in the right loop and state; from newConnection until connectDestroyed has run, a strong
      holder exists; and a loop inside a handler never has its connection destroyed under it. */
  lemma AliveUntilDestroyed(threads: nat, steps: seq<Step>)
    requires CarefulRun(Fresh(threads), steps)
    ensures Possible(Fresh(threads), steps)
    ensures var s := Exec(Fresh(threads), steps);
      && Wide(s) && s.threads == threads && !s.failed
      && (forall id: Id | 1 <= id < s.nextConnId && !PhaseOf(s, id).Gone? :: Held(s, id))
      && (forall l | 0 <= l <= threads && s.loops[l].activity.Handling? :: !PhaseOf(s, s.loops[l].activity.id).Gone?)
  {
    FreshHoldsInv(threads);
    RunKeepsInv(Fresh(threads), steps);
    KeepsThreads(Fresh(threads), steps);
    var s := Exec(Fresh(threads), steps);
    forall id: Id | 1 <= id < s.nextConnId && !PhaseOf(s, id).Gone? ensures Held(s, id) { OwedIsHeld(s, id); }
  }

  lemma {:induction false} KeepsThreads(s: Server, steps: seq<Step>)
    requires Possible(s, steps)
    ensures Exec(s, steps).threads == s.threads
    decreases |steps|
  {
    if steps != [] { KeepsThreads(Apply(s, steps[0]), steps[1..]); }
  }

  /** In a careful run, when nothing is queued, the table is exactly the connections that are up, and all others are
      destroyed. */
  lemma QuietTable(threads: nat, steps: seq<Step>, id: Id)
    requires CarefulRun(Fresh(threads), steps) && Possible(Fresh(threads), steps)
    requires forall loop <- Exec(Fresh(threads), steps).loops :: loop.queue == []
    ensures var s := Exec(Fresh(threads), steps);
      && (id in s.table <==> PhaseOf(s, id).Up?)
      && (id !in s.table <==> PhaseOf(s, id).Gone?)
  {
    FreshHoldsInv(threads);
    RunKeepsInv(Fresh(threads), steps);
    var s := Exec(Fresh(threads), steps);
    assert Regular(ViewOf(s, id));
    HomeExists(s.threads, Establish(id));
  }

  // ---- how often ----

  /** How often connectEstablished, handleClose and connectDestroyed have been called on a connection. */
  datatype Calls = Calls(established: nat, closed: nat, destroyed: nat)

  function CallsOf(s: Server, id: Id): Calls {
    Calls(s.established[id], s.closed[id], s.destroyed[id])
  }

  function After(phase: Phase): Calls {
    match phase
    case Opening => Calls(0, 0, 0)
    case Up => Calls(1, 0, 0)
    case Closed => Calls(1, 1, 0)
    case Gone => Calls(1, 1, 1)
  }

  /** A connection was called on exactly as its phase says; one that has not been accepted, never. */
  predicate Called(s: Server, id: Id) {
    CallsOf(s, id) == if id in s.phases then After(s.phases[id]) else Calls(0, 0, 0)
  }

  ghost predicate AllCalled(s: Server) {
    forall id: Id :: Called(s, id)
  }

  predicate Next(s: Server, id: Id, phase: Phase) {
    match phase
    case Opening => id !in s.phases
    case Up => id !in s.phases || s.phases[id].Opening?
    case Closed => id in s.phases && s.phases[id].Up?
    case Gone => id in s.phases && s.phases[id].Closed?
  }

  lemma GoesOn(s: Server, id: Id, phase: Phase)
    requires AllCalled(s) && Next(s, id, phase)
    ensures AllCalled(Goes(s, id, phase))
  {
    var t := Goes(s, id, phase);
    assert Called(s, id);
    forall i: Id ensures Called(t, i) { assert Called(s, i); }
  }

  // Nothing else counts.
  lemma SameCalls(s: Server, t: Server)
    requires AllCalled(s) && t.phases == s.phases
    requires t.established == s.established && t.closed == s.closed && t.destroyed == s.destroyed
    ensures AllCalled(t)
  {
    forall i: Id ensures Called(t, i) { assert Called(s, i); }
  }

  lemma CloseCalls(s: Server, id: Id)
    requires Wide(s) && AllCalled(s) && PhaseOf(s, id).Up?
    ensures AllCalled(Close(s, id))
  {
    var u := s.(failed := s.failed || !IsOpen(s, id), reopened := s.reopened - {id});
    SameCalls(s, u);
    GoesOn(u, id, Closed);
    SameCalls(Goes(u, id, Closed), Close(s, id));
  }

  lemma JobCalls(s: Server, l: LoopId)
    requires Inv(s) && AllCalled(s) && l <= s.threads && s.loops[l].queue != [] && s.loops[l].activity.Idle?
    ensures AllCalled(Execute(Take(s, l), s.loops[l].queue[0]))
  {
    var t, job := Take(s, l), s.loops[l].queue[0];
    TakeView(s, l, job.id);
    RegularAt(s, job.id);
    TakeCounts(s, l, job);
    SameCalls(s, t);
    assert s.reopened == {};
    hide Inv, AllCalled, Called;
    match job
    case Establish(id) => GoesOn(t.(failed := t.failed || !PhaseOf(t, id).Opening?), id, Up);
    case Destroy(id) => GoesOn(t.(failed := t.failed || !PhaseOf(t, id).Closed?), id, Gone);
    case RemoveInLoop(id) => SameCalls(t, Remove(t, id));
    case ForceClose(id) => if PhaseOf(t, id).Up? { CloseCalls(t, id); }
  }

  lemma StepKeepsCalls(s: Server, step: Step)
    requires Inv(s) && AllCalled(s) && Can(s, step) && Careful(s, step)
    ensures AllCalled(Apply(s, step))
  {
    match step
    case Accept =>
      var id := s.nextConnId;
      var t := s.(nextConnId := id + 1, table := s.table + {id});
      var phase := if Io(s.threads, id) == BASE_LOOP then Up else Opening;
      SameCalls(s, t);
      GoesOn(t, id, phase);
      SameCalls(Goes(t, id, phase), Apply(s, step));
    case StartJob(l) => JobCalls(s, l);
    case CloseInEvent(l) =>
      var u := Busy(s, l, s.loops[l].activity.(hung := true));
      SameCalls(s, u);
      CloseCalls(u, s.loops[l].activity.id);
    case _ => SameCalls(s, Apply(s, step));
  }

  lemma {:induction false} RunKeepsCalls(s: Server, steps: seq<Step>)
    requires Inv(s) && AllCalled(s) && CarefulRun(s, steps)
    ensures Possible(s, steps) && AllCalled(Exec(s, steps))
    decreases |steps|
  {
    CarefulIsPossible(s, steps);
    if steps != [] {
      StepKeepsInv(s, steps[0]);
      StepKeepsCalls(s, steps[0]);
      RunKeepsCalls(Apply(s, steps[0]), steps[1..]);
    }
  }

  /** Over every careful run, connectEstablished, handleClose and connectDestroyed are called at most once each on a
      connection, none before the one that precedes it; and on one that is gone, once each. */
  lemma CalledOnceInOrder(threads: nat, steps: seq<Step>, id: Id)
    requires CarefulRun(Fresh(threads), steps)
    ensures Possible(Fresh(threads), steps)
    ensures var s := Exec(Fresh(threads), steps);
      && s.destroyed[id] <= s.closed[id] <= s.established[id] <= 1
      && (s.destroyed[id] == 1 <==> 1 <= id < s.nextConnId && PhaseOf(s, id).Gone?)
  {
    FreshHoldsInv(threads);
    assert forall i: Id :: Called(Fresh(threads), i);
    RunKeepsInv(Fresh(threads), steps);
    RunKeepsCalls(Fresh(threads), steps);
    assert Called(Exec(Fresh(threads), steps), id);
  }
}
