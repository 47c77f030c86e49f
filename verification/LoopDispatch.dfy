/** loop() and the objects attached to it. Handlers, functors and other threads make the library's calls, on any object;
    what a call does, and whether at once or by a functor, is decided as in the source. What may then be removed,
    destroyed or changed while a list of active channels is being handled? */
module LoopDispatch {
  import opened Queues
  import C = Connection
  import ConnectionLife
  import I = Interest

  type Id = nat

  /** Fixture: the wakeup, timer and listening channels. Dialer: one attempt of a Connector. */
  datatype Kind = Fixture | Connection | Dialer

  /** Closed: handleClose has been called. Removed: unknown to the poller, while the channel object still exists. Gone:
      after connectDestroyed or resetChannel. */
  datatype Stage = Open | Closed | Removed | Gone

  /** `state`: state_ of a connection. `home`: the server's base loop is this loop too. */
  datatype Object = Object(
    kind: Kind, stage: Stage, state: C.State, mark: I.Mark, reading: bool, buffered: bool, home: bool)

  datatype Action =
    | SendInLoop(fills: bool)    // `fills`: something had to be left in the output buffer
    | StartReadInLoop | StopReadInLoop | ShutdownInLoop | ForceCloseInLoop | ConnectDestroyed
    | StopInLoop | ResetChannel

  datatype Job = Job(id: Id, action: Action)

  datatype Api = Send(fills: bool) | StartRead | StopRead | Shutdown | ForceClose | Stop

  function InLoopPart(api: Api): Action {
    match api
    case Send(fills) => SendInLoop(fills)
    case StartRead => StartReadInLoop
    case StopRead => StopReadInLoop
    case Shutdown => ShutdownInLoop
    case ForceClose => ForceCloseInLoop
    case Stop => StopInLoop
  }

  /** Called in the loop thread, send and the runInLoop calls run at once; the queueInLoop calls never do. */
  predicate RunsInLoop(api: Api) {
    api.Send? || api.StartRead? || api.StopRead? || api.Shutdown?
  }

  predicate Fits(kind: Kind, api: Api) {
    if api.Stop? then kind.Dialer? else kind.Connection?
  }

  /** Dispatching: `active[at]` is being handled (and has `hung` up), or is the next one to be. */
  datatype Phase = Polling | Dispatching(active: seq<Id>, at: nat, inside: bool, hung: bool) | Running

  datatype Loop = Loop(
    objects: map<Id, Object>,
    phase: Phase,
    batch: seq<Job>,
    pending: seq<Job>,
    away: multiset<Id>,   // removals of connections that are on their way through another base loop
    failed: bool)         // an assertion did not hold, or an object was used after its end

  const Start := Loop(map[], Running, [], [], multiset{}, false)

  /** What the library itself does in the handler of the current channel. */
  datatype Reaction =
    | HangUp       // a connection: handleClose
    | Drained      // a connection: handleWrite has emptied the buffer
    | DialEnds     // a connector: handleWrite or handleError

  datatype Step =
    | Poll(active: seq<Id>)
    | Enter                                    // currentActiveChannel_ = *it; handleEvent
    | React(reaction: Reaction)
    | Call(id: Id, api: Api, inLoop: bool)     // by the current handler or functor, or by another thread
    | Create(id: Id, kind: Kind, home: bool)   // connectEstablished or connecting, in a handler or a functor
    | Return(id: Id)                           // another base loop queues connectDestroyed here
    | Leave
    | EndDispatch
    | RunOne
    | EndRun

  predicate Has(s: Loop, id: Id, kind: Kind, stage: Stage) {
    id in s.objects && s.objects[id].kind == kind && s.objects[id].stage == stage
  }

  // The poller has the channel in its map, and the object exists.
  predicate Known(s: Loop, id: Id) {
    id in s.objects && (s.objects[id].stage.Open? || s.objects[id].stage.Closed?)
  }

  predicate Exists(s: Loop, id: Id) {
    id in s.objects && !s.objects[id].stage.Gone?
  }

  predicate Inside(s: Loop) {
    s.phase.Dispatching? && s.phase.inside && s.phase.at < |s.phase.active|
  }

  function Current(s: Loop): Id
    requires Inside(s)
  {
    s.phase.active[s.phase.at]
  }

  predicate Distinct(ids: seq<Id>) {
    forall i, j | 0 <= i < j < |ids| :: ids[i] != ids[j]
  }

  predicate IsOpen(o: Object) {
    o.state.Connected? || o.state.Disconnecting?
  }

  predicate IsKind(s: Loop, id: Id, kind: Kind) {
    id in s.objects && s.objects[id].kind == kind
  }

  // epoll reports what is in its list. One handleEvent closes at most once: ConnectionLife.OneCloserPerDispatch.
  predicate Can(s: Loop, step: Step) {
    match step
    case Poll(active) =>
      s.phase.Polling? && Distinct(active) && forall id <- active :: id in s.objects && s.objects[id].mark.index.Added?
    case Enter => s.phase.Dispatching? && !s.phase.inside && s.phase.at < |s.phase.active|
    case React(reaction) =>
      && Inside(s) && (reaction.HangUp? ==> !s.phase.hung)
      && IsKind(s, Current(s), if reaction.DialEnds? then Dialer else Connection)
    case Call(id, api, inLoop) =>
      id in s.objects && Fits(s.objects[id].kind, api) && (inLoop ==> Inside(s) || s.phase.Running?)
    case Create(id, _, _) => (Inside(s) || s.phase.Running?) && id !in s.objects
    case Return(id) => id in s.away
    case Leave => Inside(s)
    case EndDispatch => s.phase.Dispatching? && !s.phase.inside && s.phase.at == |s.phase.active|
    case RunOne => s.phase.Running? && s.batch != []
    case EndRun => s.phase.Running? && s.batch == []
  }

  // ---- what the functions do ----

  function Set(s: Loop, id: Id, o: Object): Loop {
    s.(objects := s.objects[id := o])
  }

  function Queue(s: Loop, job: Job): Loop {
    s.(pending := s.pending + [job])
  }

  function Changed(o: Object, change: I.Change): Object {
    o.(mark := I.Apply(o.mark, change))
  }

  predicate Reading(o: Object) {
    o.mark.events * I.READ_EVENT != {}
  }

  /** What sendInLoop, startReadInLoop, stopReadInLoop and shutdownInLoop do to a connection's channel. They do not run
      on a connection that is gone. */
  function Effect(o: Object, action: Action): Object {
    match action
    case SendInLoop(fills) =>
      if o.stage.Gone? || o.state.Disconnected? || !fills then o
      else (if I.Out in o.mark.events then o else Changed(o, I.EnableWriting)).(buffered := true)
    case StartReadInLoop =>
      if !o.stage.Gone? && (!o.reading || !Reading(o)) then Changed(o, I.EnableReading).(reading := true) else o
    case StopReadInLoop =>
      if !o.stage.Gone? && (o.reading || Reading(o)) then Changed(o, I.DisableReading).(reading := false) else o
    case _ => o
  }

  /** The state test of the call, as it is written: shutdown's is an assignment. */
  predicate Heard(o: Object, api: Api) {
    match api
    case Send(_) => o.state.Connected?
    case ForceClose => IsOpen(o)
    case _ => true
  }

  /** The state the call leaves, in whatever thread it is made. */
  function Told(o: Object, api: Api): Object {
    if api.Shutdown? || api.ForceClose? then o.(state := C.Disconnecting) else o
  }

  /** What the call itself does to the object, before any functor. */
  function AfterCall(o: Object, api: Api, inLoop: bool): Object {
    if !Heard(o, api) then o
    else if inLoop && RunsInLoop(api) then Effect(Told(o, api), InLoopPart(api))
    else Told(o, api)
  }

  /** EventLoop::removeChannel: while events are handled, only the current channel, or one that is not active; and the
      poller must know it. */
  function RemoveChannel(s: Loop, id: Id): Loop
    requires id in s.objects
  {
    var allowed := s.phase.Dispatching? ==> (Inside(s) && Current(s) == id) || id !in s.phase.active;
    Set(s.(failed := s.failed || !allowed || s.objects[id].mark.index.New?), id,
        s.objects[id].(stage := Removed, mark := I.Fresh))
  }

  // A channel's destructor: the channel must have been removed.
  function Free(s: Loop, id: Id): Loop
    requires id in s.objects
  {
    Set(s.(failed := s.failed || !s.objects[id].stage.Removed?), id, s.objects[id].(stage := Gone))
  }

  /** handleClose, which asserts that the connection is open, and removeConnection through the close callback. A
      connection that is gone must not be found again. */
  function Close(s: Loop, id: Id): Loop
    requires id in s.objects
  {
    var o := s.objects[id];
    var p := Changed(o, I.DisableAll).(state := C.Disconnected, stage := if o.stage.Open? then Closed else o.stage);
    var t := Set(s.(failed := s.failed || !IsOpen(o) || o.stage.Gone?), id, p);
    if o.home then Queue(t, Job(id, ConnectDestroyed)) else t.(away := t.away + multiset{id})
  }

  /** removeAndResetChannel */
  function RemoveAndReset(s: Loop, id: Id): Loop
    requires id in s.objects
  {
    Queue(RemoveChannel(Set(s, id, Changed(s.objects[id], I.DisableAll)), id), Job(id, ResetChannel))
  }

  function Perform(s: Loop, id: Id, action: Action): Loop {
    if id !in s.objects then s.(failed := true)
    else
      match action
      case ForceCloseInLoop => if IsOpen(s.objects[id]) then Close(s, id) else s
      case ConnectDestroyed => Free(RemoveChannel(s, id), id)
      case StopInLoop => if Has(s, id, Dialer, Open) then RemoveAndReset(s, id) else s
      case ResetChannel => Free(s, id)
      case _ => Set(s, id, Effect(s.objects[id], action))
  }

  function Apply(s: Loop, step: Step): Loop
    requires Can(s, step)
  {
    match step
    case Poll(active) => s.(phase := Dispatching(active, 0, false, false))
    case Enter => s.(phase := s.phase.(inside := true), failed := s.failed || !Known(s, s.phase.active[s.phase.at]))
    case React(HangUp) => Close(s.(phase := s.phase.(hung := true)), Current(s))
    case React(Drained) =>
      var o := s.objects[Current(s)];
      Set(s, Current(s), if I.Out in o.mark.events then Changed(o, I.DisableWriting).(buffered := false) else o)
    case React(DialEnds) => if Has(s, Current(s), Dialer, Open) then RemoveAndReset(s, Current(s)) else s
    case Call(id, api, inLoop) =>
      if !Heard(s.objects[id], api) then s
      else
        var t := Set(s, id, Told(s.objects[id], api));
        if inLoop && RunsInLoop(api) then Perform(t, id, InLoopPart(api)) else Queue(t, Job(id, InLoopPart(api)))
    case Create(id, kind, home) =>
      var change := if kind.Dialer? then I.EnableWriting else I.EnableReading;
      Set(s, id, Object(kind, Open, C.Connected, I.Apply(I.Fresh, change), true, false, home))
    case Return(id) => Queue(s.(away := s.away - multiset{id}), Job(id, ConnectDestroyed))
    case Leave => s.(phase := Dispatching(s.phase.active, s.phase.at + 1, false, false))
    case EndDispatch => s.(phase := Running, batch := s.pending, pending := [])
    case RunOne => Perform(s.(batch := s.batch[1..]), s.batch[0].id, s.batch[0].action)
    case EndRun => s.(phase := Polling)
  }

  ghost predicate Possible(s: Loop, steps: seq<Step>)
    decreases |steps|
  {
    steps != [] ==> Can(s, steps[0]) && Possible(Apply(s, steps[0]), steps[1..])
  }

  ghost function Exec(s: Loop, steps: seq<Step>): Loop
    requires Possible(s, steps)
    decreases |steps|
  {
    if steps == [] then s else Exec(Apply(s, steps[0]), steps[1..])
  }

  // ---- care ----

  predicate IsClosed(s: Loop, id: Id) {
    IsKind(s, id, Connection) && s.objects[id].state.Disconnected?
  }

  /** shutdown is not called on a closed connection, and epoll reports none: it has none in its list. When a closed
      connection comes to be there is the subject of ConnectionCare. */
  predicate Careful(s: Loop, step: Step) {
    match step
    case Call(id, api, _) => api.Shutdown? ==> !IsClosed(s, id)
    case Poll(active) => forall id <- active :: !IsClosed(s, id)
    case _ => true
  }

  ghost predicate CarefulRun(s: Loop, steps: seq<Step>)
    decreases |steps|
  {
    steps != [] ==> Can(s, steps[0]) && Careful(s, steps[0]) && CarefulRun(Apply(s, steps[0]), steps[1..])
  }

  lemma {:induction false} CarefulIsPossible(s: Loop, steps: seq<Step>)
    requires CarefulRun(s, steps)
    ensures Possible(s, steps)
    decreases |steps|
  {
    if steps != [] { CarefulIsPossible(Apply(s, steps[0]), steps[1..]); }
  }

  // ---- the invariant ----

  function Queued(s: Loop, job: Job): nat {
    Times(s.batch, job) + Times(s.pending, job)
  }

  /** Where one object is, and what is queued about its end. */
  datatype View = View(known: bool, kind: Kind, stage: Stage, destroys: nat, resets: nat)

  function ViewOf(s: Loop, id: Id): View {
    View(id in s.objects,
         if id in s.objects then s.objects[id].kind else Fixture,
         if id in s.objects then s.objects[id].stage else Open,
         Queued(s, Job(id, ConnectDestroyed)) + s.away[id],
         Queued(s, Job(id, ResetChannel)))
  }

  /** A closed connection has its connectDestroyed queued or on its way, a removed dialer its resetChannel queued, and
      nobody else has. */
  predicate Regular(v: View) {
    && v.destroys == (if v.known && v.kind.Connection? && v.stage.Closed? then 1 else 0)
    && v.resets == (if v.known && v.kind.Dialer? && v.stage.Removed? then 1 else 0)
    && (match v.kind
        case Fixture => v.stage.Open?
        case Connection => !v.stage.Removed?
        case Dialer => !v.stage.Closed?)
  }

  /** The poller knows the channels of the objects in use; a connection is open until it is closed, and has the mask it
      wants while it is open. */
  predicate Marked(o: Object) {
    && (o.stage.Open? || o.stage.Closed? <==> !o.mark.index.New?)
    && (o.kind.Connection? ==> if o.stage.Open? then IsOpen(o) else o.state.Disconnected?)
    && (o.kind.Connection? && o.stage.Open? ==> o.mark == ConnectionLife.OpenMark(o.reading, o.buffered))
  }

  ghost predicate AllRegular(s: Loop) {
    forall id: Id :: Regular(ViewOf(s, id))
  }

  ghost predicate AllMarked(s: Loop) {
    forall id <- s.objects :: Marked(s.objects[id])
  }

  predicate Suits(kind: Kind, action: Action) {
    if action.StopInLoop? || action.ResetChannel? then kind.Dialer? else kind.Connection?
  }

  // Functors are about objects that exist or have existed, and of the right kind.
  ghost predicate Sensible(s: Loop, jobs: seq<Job>) {
    forall job <- jobs :: job.id in s.objects && Suits(s.objects[job.id].kind, job.action)
  }

  // In use: not closed, not removed, not gone.
  predicate InUse(s: Loop, id: Id) {
    id in s.objects && s.objects[id].stage.Open?
  }

  /** Everything still to be handled is in use; what is being handled still exists, and is in use until it hangs up or
      its dialing ends. */
  ghost predicate ListSafe(s: Loop) {
    s.phase.Dispatching? ==>
      && Distinct(s.phase.active) && s.phase.at <= |s.phase.active|
      && (s.phase.inside ==>
            && s.phase.at < |s.phase.active| && Exists(s, s.phase.active[s.phase.at])
            && (IsKind(s, s.phase.active[s.phase.at], Connection) && !s.phase.hung ==>
                  InUse(s, s.phase.active[s.phase.at])))
      && (!s.phase.inside ==> !s.phase.hung)
      && forall i | s.phase.at <= i < |s.phase.active| && !(s.phase.inside && i == s.phase.at) ::
           InUse(s, s.phase.active[i])
  }

  ghost predicate Inv(s: Loop) {
    && !s.failed && (s.phase.Running? || s.batch == [])
    && AllRegular(s) && AllMarked(s) && Sensible(s, s.batch) && Sensible(s, s.pending)
    && ListSafe(s)
  }

  // ---- pieces of steps ----

  predicate IsEnd(action: Action) {
    action.ConnectDestroyed? || action.ResetChannel?
  }

  lemma QueueCounts(s: Loop, job: Job, other: Job)
    ensures Queued(Queue(s, job), other) == Queued(s, other) + if other == job then 1 else 0
  {
    TimesAppend(s.pending, job, other);
  }

  lemma TakeCounts(s: Loop, other: Job)
    requires s.batch != []
    ensures Queued(s, other) == Queued(s.(batch := s.batch[1..]), other) + if other == s.batch[0] then 1 else 0
  {
    TimesHead(s.batch, other);
  }

  lemma EffectKeeps(o: Object, action: Action)
    requires Marked(o) && o.kind.Connection? && !o.stage.Removed?
    ensures var e := Effect(o, action);
      Marked(e) && e.kind == o.kind && e.stage == o.stage && e.home == o.home && e.state == o.state
  {
    ConnectionLife.OpenMarks(o.reading, o.buffered);
    ConnectionLife.OpenMarks(!o.reading, o.buffered);
  }

  lemma DrainKeeps(o: Object)
    requires Marked(o) && o.kind.Connection? && (o.stage.Open? || o.stage.Closed?) && I.Out in o.mark.events
    ensures Marked(Changed(o, I.DisableWriting).(buffered := false))
  {
    ConnectionLife.OpenMarks(o.reading, o.buffered);
  }

  lemma ToldKeeps(o: Object, api: Api)
    requires Marked(o) && Heard(o, api) && (api.Shutdown? ==> !o.state.Disconnected?) && Fits(o.kind, api)
    requires o.kind.Connection? ==> !o.stage.Removed?
    ensures var t := Told(o, api);
      Marked(t) && t.kind == o.kind && t.stage == o.stage && t.home == o.home
  {
  }

  // One object's mask changes.
  lemma Touched(s: Loop, id: Id, o: Object)
    requires Inv(s) && id in s.objects && o.kind == s.objects[id].kind && o.stage == s.objects[id].stage && Marked(o)
    ensures Inv(Set(s, id, o))
  {
    var t := Set(s, id, o);
    forall i: Id ensures ViewOf(t, i) == ViewOf(s, i) {}
    hide ViewOf, Regular, Marked;
  }

  // A functor that ends nothing joins the queue.
  lemma Asked(s: Loop, job: Job)
    requires Inv(s) && job.id in s.objects && Suits(s.objects[job.id].kind, job.action) && !IsEnd(job.action)
    ensures Inv(Queue(s, job))
  {
    var t := Queue(s, job);
    forall i: Id ensures ViewOf(t, i) == ViewOf(s, i) {
      QueueCounts(s, job, Job(i, ConnectDestroyed));
      QueueCounts(s, job, Job(i, ResetChannel));
    }
    hide ViewOf, Regular, Marked, Queued;
  }

  lemma PerformsQuietly(s: Loop, id: Id, action: Action)
    requires Inv(s) && id in s.objects && Suits(s.objects[id].kind, action)
    requires action.SendInLoop? || action.StartReadInLoop? || action.StopReadInLoop? || action.ShutdownInLoop?
    ensures Inv(Perform(s, id, action))
  {
    assert Regular(ViewOf(s, id));
    EffectKeeps(s.objects[id], action);
    Touched(s, id, Effect(s.objects[id], action));
  }

  // The object is not one still to be handled: no list is being handled, or the object is the current one.
  predicate OutOfList(s: Loop, id: Id) {
    s.phase.Dispatching? ==> Inside(s) && Current(s) == id
  }

  lemma ListAfter(s: Loop, t: Loop, id: Id)
    requires ListSafe(s) && t.phase == s.phase && OutOfList(s, id)
    requires s.phase.Dispatching? ==> Exists(t, id) && (IsKind(t, id, Connection) ==> s.phase.hung)
    requires forall i | i in s.objects && i != id :: i in t.objects && t.objects[i] == s.objects[i]
    ensures ListSafe(t)
  {
  }

  lemma CloseViews(s: Loop, id: Id, i: Id)
    requires Inv(s) && Has(s, id, Connection, Open)
    ensures Regular(ViewOf(Close(s, id), i))
  {
    assert Regular(ViewOf(s, i));
    QueueCounts(s, Job(id, ConnectDestroyed), Job(i, ConnectDestroyed));
    QueueCounts(s, Job(id, ConnectDestroyed), Job(i, ResetChannel));
    hide Inv, Queued;
  }

  lemma ClosedObject(o: Object)
    requires Marked(o) && o.kind.Connection? && o.stage.Open?
    ensures IsOpen(o) && Marked(Changed(o, I.DisableAll).(state := C.Disconnected, stage := Closed))
  {
    ConnectionLife.OpenMarks(o.reading, o.buffered);
  }

  lemma CloseMarks(s: Loop, id: Id)
    requires Inv(s) && Has(s, id, Connection, Open)
    ensures var t := Close(s, id);
      && AllMarked(t) && Sensible(t, t.batch) && Sensible(t, t.pending)
      && !t.failed && t.batch == s.batch && t.phase == s.phase
  {
    ClosedObject(s.objects[id]);
    hide Marked, IsOpen, AllRegular, ListSafe;
  }

  // The first close of a connection.
  lemma CloseKeeps(s: Loop, id: Id)
    requires Inv(s) && Has(s, id, Connection, Open) && OutOfList(s, id) && (s.phase.Dispatching? ==> s.phase.hung)
    ensures Inv(Close(s, id))
  {
    var t := Close(s, id);
    CloseMarks(s, id);
    forall i: Id ensures Regular(ViewOf(t, i)) { CloseViews(s, id, i); }
    ListAfter(s, t, id);
    hide ViewOf, Regular, ListSafe, AllMarked, Sensible, Close;
  }

  lemma ResetViews(s: Loop, id: Id, i: Id)
    requires Inv(s) && Has(s, id, Dialer, Open)
    ensures Regular(ViewOf(RemoveAndReset(s, id), i))
  {
    assert Regular(ViewOf(s, i));
    assert Regular(ViewOf(s, id));
    QueueCounts(s, Job(id, ResetChannel), Job(i, ConnectDestroyed));
    QueueCounts(s, Job(id, ResetChannel), Job(i, ResetChannel));
    hide Inv, Queued;
  }

  lemma ResetKeeps(s: Loop, id: Id)
    requires Inv(s) && Has(s, id, Dialer, Open) && OutOfList(s, id)
    ensures Inv(RemoveAndReset(s, id))
  {
    var t := RemoveAndReset(s, id);
    forall i: Id ensures Regular(ViewOf(t, i)) { ResetViews(s, id, i); }
    ListAfter(s, t, id);
    hide ViewOf, Regular, Queued, ListSafe;
  }

  // ---- steps ----

  lemma SameViews(s: Loop, t: Loop)
    requires t.objects == s.objects && t.away == s.away
    requires t.batch + t.pending == s.batch + s.pending
    ensures forall id: Id :: ViewOf(t, id) == ViewOf(s, id)
  {
    forall job: Job ensures Queued(t, job) == Queued(s, job) {
      TimesConcat(t.batch, t.pending, job);
      TimesConcat(s.batch, s.pending, job);
    }
    hide Queued;
  }

  // What epoll reports is in use, unless it is a closed connection.
  lemma ReportedInUse(s: Loop, id: Id)
    requires Inv(s) && id in s.objects && s.objects[id].mark.index.Added? && !IsClosed(s, id)
    ensures InUse(s, id)
  {
    assert Marked(s.objects[id]);
    assert Regular(ViewOf(s, id));
  }

  lemma DispatchSteps(s: Loop, step: Step)
    requires Inv(s) && Can(s, step) && Careful(s, step) && (step.Poll? || step.Enter? || step.Leave?)
    ensures Inv(Apply(s, step))
  {
    SameViews(s, Apply(s, step));
    if step.Poll? {
      forall i | 0 <= i < |step.active| ensures InUse(s, step.active[i]) {
        assert step.active[i] in step.active;
        ReportedInUse(s, step.active[i]);
      }
    }
    hide ViewOf, Regular, Sensible, AllMarked;
  }

  lemma BatchSteps(s: Loop, step: Step)
    requires Inv(s) && Can(s, step) && (step.EndDispatch? || step.EndRun?)
    ensures Inv(Apply(s, step))
  {
    assert s.batch == [] ==> s.pending + [] == s.batch + s.pending;
    SameViews(s, Apply(s, step));
    hide ViewOf, Regular, Marked;
  }

  lemma CreateStep(s: Loop, step: Step)
    requires Inv(s) && Can(s, step) && step.Create?
    ensures Inv(Apply(s, step))
  {
    var t := Apply(s, step);
    ConnectionLife.OpenMarks(true, false);
    forall i: Id ensures Regular(ViewOf(t, i)) { assert Regular(ViewOf(s, i)); }
    hide ViewOf, Regular;
  }

  lemma ReturnStep(s: Loop, id: Id)
    requires Inv(s) && Can(s, Return(id))
    ensures Inv(Apply(s, Return(id)))
  {
    var t := Apply(s, Return(id));
    forall i: Id ensures ViewOf(t, i) == ViewOf(s, i) { ReturnViews(s, id, i); }
    AwayIsClosed(s, id);
    assert AllRegular(t) by { hide ViewOf, Regular; }
    hide ViewOf, Regular, Queued, AllRegular, Marked;
  }

  lemma ReturnViews(s: Loop, id: Id, i: Id)
    requires Can(s, Return(id))
    ensures ViewOf(Apply(s, Return(id)), i) == ViewOf(s, i)
  {
    QueueCounts(s, Job(id, ConnectDestroyed), Job(i, ConnectDestroyed));
    QueueCounts(s, Job(id, ConnectDestroyed), Job(i, ResetChannel));
    hide Times;
  }

  lemma AwayIsClosed(s: Loop, id: Id)
    requires AllRegular(s) && id in s.away
    ensures Has(s, id, Connection, Closed)
  {
    assert Regular(ViewOf(s, id));
  }

  lemma HangUpStep(s: Loop)
    requires Inv(s) && Can(s, React(HangUp))
    ensures Inv(Apply(s, React(HangUp)))
  {
    var u := s.(phase := s.phase.(hung := true));
    SameViews(s, u);
    assert Inv(u) by { hide ViewOf, Regular, Sensible, AllMarked; }
    CloseKeeps(u, Current(s));
  }

  lemma ReactStep(s: Loop, reaction: Reaction)
    requires Inv(s) && Can(s, React(reaction))
    ensures Inv(Apply(s, React(reaction)))
  {
    var id := Current(s);
    match reaction
    case HangUp => HangUpStep(s);
    case DialEnds => if Has(s, id, Dialer, Open) { ResetKeeps(s, id); }
    case Drained =>
      assert Marked(s.objects[id]) && Regular(ViewOf(s, id));
      if I.Out in s.objects[id].mark.events {
        DrainKeeps(s.objects[id]);
        Touched(s, id, Changed(s.objects[id], I.DisableWriting).(buffered := false));
      } else {
        Touched(s, id, s.objects[id]);
      }
  }

  lemma CallStep(s: Loop, id: Id, api: Api, inLoop: bool)
    requires Inv(s) && Can(s, Call(id, api, inLoop)) && Careful(s, Call(id, api, inLoop))
    ensures Inv(Apply(s, Call(id, api, inLoop)))
  {
    var o := s.objects[id];
    assert Marked(o) && Regular(ViewOf(s, id));
    if Heard(o, api) {
      ToldKeeps(o, api);
      var t := Set(s, id, Told(o, api));
      Touched(s, id, Told(o, api));
      hide Inv, Marked, Told, Heard;
      if inLoop && RunsInLoop(api) {
        PerformsQuietly(t, id, InLoopPart(api));
      } else {
        Asked(t, Job(id, InLoopPart(api)));
      }
    }
  }

  // A functor that ends nothing is taken.
  lemma Taken(s: Loop)
    requires Inv(s) && s.phase.Running? && s.batch != [] && !IsEnd(s.batch[0].action)
    ensures Inv(s.(batch := s.batch[1..]))
    ensures var job := s.batch[0]; job.id in s.objects && Suits(s.objects[job.id].kind, job.action)
  {
    var t := s.(batch := s.batch[1..]);
    assert s.batch[0] in s.batch && forall job <- s.batch[1..] :: job in s.batch;
    forall i: Id ensures ViewOf(t, i) == ViewOf(s, i) {
      TakeCounts(s, Job(i, ConnectDestroyed));
      TakeCounts(s, Job(i, ResetChannel));
    }
    hide ViewOf, Regular, Queued;
  }

  // connectDestroyed and resetChannel find what they expect, and leave nothing queued about their object.
  lemma EndJobFinds(s: Loop)
    requires Inv(s) && s.batch != [] && IsEnd(s.batch[0].action)
    ensures var job := s.batch[0];
      if job.action.ConnectDestroyed? then Has(s, job.id, Connection, Closed) else Has(s, job.id, Dialer, Removed)
  {
    TakeCounts(s, s.batch[0]);
    assert Regular(ViewOf(s, s.batch[0].id));
  }

  lemma EndJobViews(s: Loop, i: Id)
    requires Inv(s) && s.phase.Running? && s.batch != [] && IsEnd(s.batch[0].action)
    ensures Regular(ViewOf(Apply(s, RunOne), i))
  {
    EndJobFinds(s);
    assert Regular(ViewOf(s, i));
    assert Regular(ViewOf(s, s.batch[0].id));
    TakeCounts(s, Job(i, ConnectDestroyed));
    TakeCounts(s, Job(i, ResetChannel));
    hide Inv, Queued;
  }

  lemma EndJob(s: Loop)
    requires Inv(s) && s.phase.Running? && s.batch != [] && IsEnd(s.batch[0].action)
    ensures Inv(Apply(s, RunOne))
  {
    var t := Apply(s, RunOne);
    assert forall j <- s.batch[1..] :: j in s.batch;
    EndJobFinds(s);
    forall i: Id ensures Regular(ViewOf(t, i)) { EndJobViews(s, i); }
    hide ViewOf, Regular, Queued;
  }

  lemma OpenIsOpen(s: Loop, id: Id)
    requires Inv(s) && IsKind(s, id, Connection)
    ensures IsOpen(s.objects[id]) <==> Has(s, id, Connection, Open)
  {
    assert Marked(s.objects[id]);
  }

  lemma FunctorStep(s: Loop)
    requires Inv(s) && Can(s, RunOne)
    ensures Inv(Apply(s, RunOne))
  {
    var t, job := s.(batch := s.batch[1..]), s.batch[0];
    if IsEnd(job.action) {
      EndJob(s);
    } else {
      Taken(s);
      hide Inv;
      match job.action
      case ForceCloseInLoop => OpenIsOpen(t, job.id); if Has(t, job.id, Connection, Open) { CloseKeeps(t, job.id); }
      case StopInLoop => if Has(t, job.id, Dialer, Open) { ResetKeeps(t, job.id); }
      case _ => PerformsQuietly(t, job.id, job.action);
    }
  }

  lemma StepKeepsInv(s: Loop, step: Step)
    requires Inv(s) && Can(s, step) && Careful(s, step)
    ensures Inv(Apply(s, step))
  {
    hide Inv;
    match step
    case Call(id, api, inLoop) => CallStep(s, id, api, inLoop);
    case React(reaction) => ReactStep(s, reaction);
    case Create(_, _, _) => CreateStep(s, step);
    case Return(id) => ReturnStep(s, id);
    case RunOne => FunctorStep(s);
    case Poll(_) => DispatchSteps(s, step);
    case Enter => DispatchSteps(s, step);
    case Leave => DispatchSteps(s, step);
    case EndDispatch => BatchSteps(s, step);
    case EndRun => BatchSteps(s, step);
  }

  lemma StartHoldsInv()
    ensures Inv(Start)
  {
    forall i: Id ensures Regular(ViewOf(Start, i)) {
      TimesAppend([], Job(i, ConnectDestroyed), Job(i, ConnectDestroyed));
      TimesAppend([], Job(i, ResetChannel), Job(i, ResetChannel));
    }
  }

  lemma {:induction false} RunKeepsInv(s: Loop, steps: seq<Step>)
    requires Inv(s) && CarefulRun(s, steps)
    ensures Possible(s, steps) && Inv(Exec(s, steps))
    decreases |steps|
  {
    CarefulIsPossible(s, steps);
    if steps != [] {
      StepKeepsInv(s, steps[0]);
      RunKeepsInv(Apply(s, steps[0]), steps[1..]);
    }
  }

  // ---- main results ----

  /** Over every careful run, whatever other calls handlers, functors and other threads make on whatever object: the
      assertions in removeChannel hold, handleClose finds its connection open, only channels the poller knows are
      removed and only removed ones destroyed; and while a list of active channels is handled, the current object
      exists, and every object still to be handled is in use. */
  lemma RemovalIsSafe(steps: seq<Step>)
    requires CarefulRun(Start, steps)
    ensures Possible(Start, steps)
    ensures var s := Exec(Start, steps);
      && !s.failed
      && (s.phase.Dispatching? ==> forall i | s.phase.at < i < |s.phase.active| :: InUse(s, s.phase.active[i]))
      && (Inside(s) ==> Exists(s, Current(s)))
  {
    StartHoldsInv();
    RunKeepsInv(Start, steps);
  }

  /** The objects whose handleEvent has been called, in order. */
  ghost function Entered(s: Loop, steps: seq<Step>): seq<Id>
    requires Possible(s, steps)
    decreases |steps|
  {
    if steps == [] then []
    else (if steps[0].Enter? then [s.phase.active[s.phase.at]] else []) + Entered(Apply(s, steps[0]), steps[1..])
  }

  // How much of the list has been entered.
  function Reached(p: Phase): nat
    requires p.Dispatching?
  {
    p.at + if p.inside then 1 else 0
  }

  ghost predicate InList(p: Phase) {
    p.Dispatching? && Reached(p) <= |p.active|
  }

  lemma StepEnters(s: Loop, step: Step)
    requires InList(s.phase) && Can(s, step) && !step.EndDispatch?
    ensures var u := Apply(s, step);
      && InList(u.phase) && u.phase.active == s.phase.active
      && Reached(u.phase) == Reached(s.phase) + (if step.Enter? then 1 else 0)
      && (step.Enter? ==> s.phase.active[s.phase.at] == s.phase.active[Reached(s.phase)])
  {
    hide Effect, I.Apply;
  }

  lemma {:induction false} ListInTurn(s: Loop, steps: seq<Step>)
    requires InList(s.phase) && Possible(s, steps) && EndDispatch !in steps
    ensures var t := Exec(s, steps);
      && InList(t.phase) && t.phase.active == s.phase.active && Reached(s.phase) <= Reached(t.phase)
      && Entered(s, steps) == s.phase.active[Reached(s.phase)..Reached(t.phase)]
    decreases |steps|
  {
    if steps != [] {
      var u := Apply(s, steps[0]);
      StepEnters(s, steps[0]);
      hide Apply, Can;
      ListInTurn(u, steps[1..]);
    }
  }

  /** When the loop is done with what epoll_wait reported, it has called handleEvent on each reported object once, in
      the reported order, whatever the handlers did. */
  lemma EachIsHandledOnce(s: Loop, active: seq<Id>, steps: seq<Step>)
    requires Can(s, Poll(active)) && Possible(Apply(s, Poll(active)), steps) && EndDispatch !in steps
    ensures Can(Exec(Apply(s, Poll(active)), steps), EndDispatch) ==> Entered(Apply(s, Poll(active)), steps) == active
  {
    ListInTurn(Apply(s, Poll(active)), steps);
    hide Possible, Exec, Entered;
  }

  // Only the current object is changed, and what is queued about it.
  ghost predicate Reacted(s: Loop, t: Loop, reaction: Reaction)
    requires Inside(s)
  {
    var id := Current(s);
    && id in s.objects && t.objects.Keys == s.objects.Keys && t.batch == s.batch
    && (forall i <- s.objects | i != id :: t.objects[i] == s.objects[i])
    && (var o, p := s.objects[id], t.objects[id];
        match reaction
        case Drained =>
          p == o.(buffered := false, mark := ConnectionLife.OpenMark(o.reading, false))
          && t.pending == s.pending && t.away == s.away
        case HangUp =>
          p.stage.Closed? && p.state.Disconnected? && p.mark.events == I.NONE_EVENT
          && (if o.home then t.pending == s.pending + [Job(id, ConnectDestroyed)] && t.away == s.away
              else t.pending == s.pending && t.away == s.away + multiset{id})
        case DialEnds =>
          p.stage.Removed? && p.mark == I.Fresh
          && t.pending == s.pending + [Job(id, ResetChannel)] && t.away == s.away)
  }

  /** What a handler does to its own object, which is in use: a drained connection stops watching for writability; a
      hang-up closes it, empties its mask and has connectDestroyed queued, here or by the base loop; the end of dialing
      removes the channel and has resetChannel queued. Nothing else changes. */
  lemma ReactionTakesEffect(s: Loop, reaction: Reaction)
    requires Inv(s) && Can(s, React(reaction)) && InUse(s, Current(s))
    ensures Reacted(s, Apply(s, React(reaction)), reaction)
  {
    var o := s.objects[Current(s)];
    assert Marked(o);
    match reaction
    case Drained => DrainReacts(s, o);
    case HangUp => HangUpReacts(s, o);
    case DialEnds =>
  }

  lemma DrainReacts(s: Loop, o: Object)
    requires Can(s, React(Drained)) && InUse(s, Current(s)) && o == s.objects[Current(s)] && Marked(o)
    ensures Reacted(s, Apply(s, React(Drained)), Drained)
  {
    ConnectionLife.OpenMarks(o.reading, o.buffered);
    hide ConnectionLife.OpenMark;
  }

  lemma HangUpReacts(s: Loop, o: Object)
    requires Can(s, React(HangUp)) && InUse(s, Current(s)) && o == s.objects[Current(s)] && Marked(o)
    ensures Reacted(s, Apply(s, React(HangUp)), HangUp)
  {
    hide ConnectionLife.OpenMark;
  }

  /** Over every careful run: when nothing is queued or on its way, every object is in use, or it is gone: nothing
      closed or removed is left over. */
  lemma NothingIsLeftOver(steps: seq<Step>, id: Id)
    requires CarefulRun(Start, steps)
    ensures Possible(Start, steps)
    ensures var s := Exec(Start, steps);
      id in s.objects && s.batch == [] && s.pending == [] && s.away == multiset{} ==>
        InUse(s, id) || s.objects[id].stage.Gone?
  {
    StartHoldsInv();
    RunKeepsInv(Start, steps);
    var s := Exec(Start, steps);
    assert Regular(ViewOf(s, id));
    TimesAppend([], Job(id, ConnectDestroyed), Job(id, ConnectDestroyed));
    TimesAppend([], Job(id, ResetChannel), Job(id, ResetChannel));
  }

  /** Why stop() is queued even in the loop's own thread: run inside the handler of another channel, stopInLoop would
      break the assertion exactly when the connector's channel is in the active list, handled already or not. */
  lemma StopMustBeQueued(s: Loop, id: Id)
    requires Inv(s) && Inside(s) && Has(s, id, Dialer, Open)
    ensures Perform(s, id, StopInLoop).failed <==> id in s.phase.active && id != Current(s)
  {
    assert Marked(s.objects[id]);
    hide AllRegular, ListSafe, Sensible;
  }

  /** A call: what is called, and whether in the loop thread. */
  datatype Said = Said(api: Api, inLoop: bool)

  function CallOn(step: Step, id: Id): seq<Said> {
    if step.Call? && step.id == id then [Said(step.api, step.inLoop)] else []
  }

  function CallsOn(steps: seq<Step>, id: Id): seq<Said> {
    if steps == [] then [] else CallOn(steps[0], id) + CallsOn(steps[1..], id)
  }

  function CalledUpon(o: Object, calls: seq<Said>): Object
    decreases |calls|
  {
    if calls == [] then o else CalledUpon(AfterCall(o, calls[0].api, calls[0].inLoop), calls[1..])
  }

  /** The stretch of the active list that is handled between `from` and `to`, both included. */
  function Handled(active: seq<Id>, from: nat, to: nat): seq<Id>
    requires from <= to && from <= |active|
  {
    active[from..if to < |active| then to + 1 else |active|]
  }

  lemma HandledPart(active: seq<Id>, from: nat, mid: nat, to: nat, id: Id)
    requires from <= mid <= to && mid <= |active| && id !in Handled(active, from, to)
    ensures id !in Handled(active, mid, to) && (from < |active| ==> active[from] != id)
  {
    var all := Handled(active, from, to);
    assert from < |active| ==> all[0] == active[from];
    assert Handled(active, mid, to) == if mid - from <= |all| then all[mid - from..] else [];
  }

  lemma CallDoes(s: Loop, id: Id, api: Api, inLoop: bool)
    requires Can(s, Call(id, api, inLoop))
    ensures var t := Apply(s, Call(id, api, inLoop));
      t.objects == s.objects[id := AfterCall(s.objects[id], api, inLoop)] && t.phase == s.phase
  {
    hide Effect, I.Apply;
  }

  lemma OneStep(s: Loop, step: Step, id: Id)
    requires ListSafe(s) && Can(s, step) && s.phase.Dispatching? && !step.EndDispatch? && id in s.objects
    ensures var u, active := Apply(s, step), s.phase.active;
      && u.phase.Dispatching? && u.phase.active == active && s.phase.at <= u.phase.at <= |active| && id in u.objects
      && ((s.phase.at < |active| ==> active[s.phase.at] != id) ==>
            u.objects[id] == CalledUpon(s.objects[id], CallOn(step, id)))
  {
    hide Effect, I.Apply, AfterCall;
    match step
    case Call(i, api, inLoop) =>
      CallDoes(s, i, api, inLoop);
      assert i == id ==> [Said(api, inLoop)][1..] == [];
      hide Apply;
    case _ =>
  }

  lemma {:induction false} CalledInTurn(o: Object, a: seq<Said>, b: seq<Said>)
    ensures CalledUpon(o, a + b) == CalledUpon(CalledUpon(o, a), b)
    decreases |a|
  {
    if a == [] {
      assert a + b == b;
    } else {
      assert (a + b)[0] == a[0] && (a + b)[1..] == a[1..] + b;
      CalledInTurn(AfterCall(o, a[0].api, a[0].inLoop), a[1..], b);
    }
  }

  /** While one list is handled, an object whose turn did not come in between is changed by nothing but the calls that
      others make on it: in the loop thread send, startRead and stopRead change its mask at once, and in any thread
      shutdown and forceClose change its state; no other handler, no timer and no functor removes it, destroys it,
      closes it or changes its mask. */
  lemma {:induction false} OnlyCallsChangeOthers(s: Loop, steps: seq<Step>, id: Id)
    requires Inv(s) && s.phase.Dispatching? && s.phase.at <= |s.phase.active| && CarefulRun(s, steps)
    requires EndDispatch !in steps && id in s.objects
    ensures Possible(s, steps)
    ensures var t := Exec(s, steps);
      && t.phase.Dispatching? && t.phase.active == s.phase.active && s.phase.at <= t.phase.at <= |s.phase.active|
      && id in t.objects
      && (id !in Handled(s.phase.active, s.phase.at, t.phase.at) ==>
            t.objects[id] == CalledUpon(s.objects[id], CallsOn(steps, id)))
    decreases |steps|
  {
    CarefulIsPossible(s, steps);
    if steps != [] {
      var u, t := Apply(s, steps[0]), Exec(s, steps);
      StepKeepsInv(s, steps[0]);
      OneStep(s, steps[0], id);
      hide Inv, Can, Apply, Handled, CalledUpon, CallOn;
      OnlyCallsChangeOthers(u, steps[1..], id);
      if id !in Handled(s.phase.active, s.phase.at, t.phase.at) {
        HandledPart(s.phase.active, s.phase.at, u.phase.at, t.phase.at, id);
        CalledInTurn(s.objects[id], CallOn(steps[0], id), CallsOn(steps[1..], id));
      }
    }
  }

  /** Whether the last of these calls about reading that was made in the loop thread asked for it. */
  function Wish(calls: seq<Said>, reading: bool): bool {
    if calls == [] then reading
    else
      var c := calls[0];
      Wish(calls[1..],
           if c.inLoop && c.api.StartRead? then true else if c.inLoop && c.api.StopRead? then false else reading)
  }

  /** Whether one of them in the loop thread left something to write: a send, before any shutdown or forceClose. */
  function Fills(calls: seq<Said>, connected: bool): bool {
    if calls == [] || !connected then false
    else
      || (calls[0].inLoop && calls[0].api.Send? && calls[0].api.fills)
      || Fills(calls[1..], !calls[0].api.Shutdown? && !calls[0].api.ForceClose?)
  }

  lemma CallCounts(o: Object, said: Said)
    requires Marked(o) && o.kind.Connection? && o.stage.Open? && Fits(o.kind, said.api)
    ensures var e := AfterCall(o, said.api, said.inLoop);
      && Marked(e) && e.kind.Connection? && e.stage.Open?
      && e.reading == Wish([said], o.reading) && (e.buffered <==> o.buffered || Fills([said], o.state.Connected?))
      && (e.state.Connected? <==> o.state.Connected? && !said.api.Shutdown? && !said.api.ForceClose?)
  {
    if Heard(o, said.api) { ToldKeeps(o, said.api); }
    ConnectionLife.OpenMarks(o.reading, o.buffered);
    EffectKeeps(Told(o, said.api), InLoopPart(said.api));
    hide ConnectionLife.OpenMark;
  }

  lemma {:induction false} WishesCount(o: Object, calls: seq<Said>)
    requires Marked(o) && o.kind.Connection? && o.stage.Open? && forall c <- calls :: Fits(o.kind, c.api)
    ensures var e := CalledUpon(o, calls);
      && Marked(e) && e.kind.Connection? && e.stage.Open?
      && e.reading == Wish(calls, o.reading) && (e.buffered <==> o.buffered || Fills(calls, o.state.Connected?))
    decreases |calls|
  {
    if calls != [] {
      assert calls[0] in calls && [calls[0]][1..] == [];
      CallCounts(o, calls[0]);
      WishesCount(AfterCall(o, calls[0].api, calls[0].inLoop), calls[1..]);
      hide Marked, AfterCall;
    }
  }

  lemma EffectKeepsKind(o: Object, action: Action)
    ensures Effect(o, action).kind == o.kind
  {
  }

  lemma PerformKeepsKind(s: Loop, job: Id, action: Action, id: Id, kind: Kind)
    requires IsKind(s, id, kind)
    ensures IsKind(Perform(s, job, action), id, kind)
  {
    if job in s.objects { EffectKeepsKind(s.objects[job], action); }
    hide Effect, I.Apply;
  }

  lemma KindStays(s: Loop, step: Step, id: Id, kind: Kind)
    requires Can(s, step) && IsKind(s, id, kind)
    ensures IsKind(Apply(s, step), id, kind)
  {
    hide Perform, Effect, I.Apply;
    match step
    case RunOne => PerformKeepsKind(s.(batch := s.batch[1..]), s.batch[0].id, s.batch[0].action, id, kind);
    case Call(i, api, inLoop) =>
      PerformKeepsKind(Set(s, i, Told(s.objects[i], api)), i, InLoopPart(api), id, kind);
    case _ =>
  }

  // Calls that were possible are calls on a connection.
  lemma {:induction false} CallsFit(s: Loop, steps: seq<Step>, id: Id)
    requires Possible(s, steps) && IsKind(s, id, Connection)
    ensures forall c <- CallsOn(steps, id) :: Fits(Connection, c.api)
    decreases |steps|
  {
    if steps != [] {
      KindStays(s, steps[0], id, Connection);
      assert forall c <- CallOn(steps[0], id) :: Fits(Connection, c.api);
      hide Apply, Can;
      CallsFit(Apply(s, steps[0]), steps[1..], id);
    }
  }

  /** So an open connection that is still to be handled listens exactly if it reads after those calls, or has something
      to write: the handler of another connection can silence it by stopRead, and by nothing else. */
  lemma StillListensIff(s: Loop, steps: seq<Step>, id: Id)
    requires Inv(s) && s.phase.Dispatching? && s.phase.at <= |s.phase.active| && CarefulRun(s, steps)
    requires EndDispatch !in steps && Has(s, id, Connection, Open)
    requires Possible(s, steps) && Exec(s, steps).phase.Dispatching? && s.phase.at <= Exec(s, steps).phase.at
    requires id !in Handled(s.phase.active, s.phase.at, Exec(s, steps).phase.at)
    ensures var o, t, calls := s.objects[id], Exec(s, steps), CallsOn(steps, id);
      && Has(t, id, Connection, Open)
      && (t.objects[id].mark.events != I.NONE_EVENT <==>
            Wish(calls, o.reading) || o.buffered || Fills(calls, o.state.Connected?))
  {
    OnlyCallsChangeOthers(s, steps, id);
    CallsFit(s, steps, id);
    WishesCount(s.objects[id], CallsOn(steps, id));
    var e := CalledUpon(s.objects[id], CallsOn(steps, id));
    ConnectionLife.OpenMarks(e.reading, e.buffered);
    hide Exec, Possible, CalledUpon, CallsOn, Wish, Fills, ListSafe, AllRegular;
  }
}
