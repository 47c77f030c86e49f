/** A connector together with its loop: functors, events, retry timers and the connection it delivers, over
    every run of the client protocol. */
module ConnectorRuns {
  import opened Connecting
  import opened Queues

  /** CloseTask: forceCloseInLoop of the connection that was delivered on a socket. */
  datatype Task = StartTask | StopTask | ResetTask | CloseTask(fd: Fd)

  datatype Handler = OnError | OnWrite

  /** `todo`: the handlers of the connector's channel still to be called. */
  datatype Phase = Polling | Dispatching(todo: seq<Handler>) | Running

  /** The delivered connection, while it is open. It gets events from the iteration after its delivery on. */
  datatype Up = Nobody | New(fd: Fd) | Settled(fd: Fd)

  datatype Sys = Sys(
    c: Connector, phase: Phase, batch: seq<Task>, pending: seq<Task>,
    clock: nat, iterStart: nat, started: bool, up: Up)

  /** Before loop() the loop's thread is as between two iterations: it may call start, which runs at once. */
  const Begin := Sys(Fresh, Running, [], [], 0, 0, false, Nobody)

  /** `fd` and `errno` are the kernel's answers if a connection attempt is made. */
  datatype Step =
    | Start(inLoop: bool, fd: Fd, errno: Errno)
    | Stop
    | Poll(error: bool, write: bool, elapsed: nat)
    | HandleNext(outcome: Outcome)
    | FireTimer(i: nat, fd: Fd, errno: Errno)
    | CloseUp(again: bool, fd: Fd, errno: Errno)   // the delivered connection closes; `again`: the client restarts
    | QueueClose
    | EndDispatch
    | RunOne(again: bool, fd: Fd, errno: Errno)
    | EndRun
    | Elapse(ms: nat)

  predicate NewFd(s: Sys, fd: Fd) {
    fd !in s.c.created
  }

  // A resetChannel that is still queued when the loop polls was queued by a functor, which has written the eventfd:
  // epoll_wait returns at once. What another thread has queued it may not have announced yet.
  predicate Can(s: Sys, step: Step) {
    match step
    case Start(inLoop, fd, _) => !s.started && (inLoop ==> !s.phase.Polling?) && NewFd(s, fd)
    case Stop => true
    case Poll(error, write, elapsed) =>
      s.phase.Polling? && (error || write ==> s.c.slot.Live?) && (ResetTask in s.pending ==> elapsed == 0)
    case HandleNext(_) => s.phase.Dispatching? && s.phase.todo != []
    case FireTimer(i, fd, _) => s.phase.Dispatching? && i < |s.c.timers| && s.c.timers[i] <= s.clock && NewFd(s, fd)
    case CloseUp(_, fd, _) => s.phase.Dispatching? && s.up.Settled? && NewFd(s, fd)
    case QueueClose => !s.up.Nobody?
    case EndDispatch => s.phase.Dispatching? && s.phase.todo == []
    case RunOne(_, fd, _) => s.phase.Running? && s.batch != [] && NewFd(s, fd)
    case EndRun => s.phase.Running? && s.batch == []
    case Elapse(_) => !s.phase.Polling?
  }

  /** What is assumed of the program around the connector: no loop iteration lasts longer than `budget`
      milliseconds; and, when `polite`, nobody starts or restarts it between stop() and its stopInLoop. */
  datatype Rules = Rules(budget: nat, polite: bool)

  predicate StopQueued(s: Sys) {
    StopTask in s.batch || StopTask in s.pending
  }

  predicate Starts(step: Step) {
    step.Start? || ((step.CloseUp? || step.RunOne?) && step.again)
  }

  predicate Enabled(s: Sys, step: Step, r: Rules) {
    && Can(s, step)
    && (step.Elapse? ==> s.clock + step.ms <= s.iterStart + r.budget)
    && (r.polite && Starts(step) ==> !StopQueued(s))
  }

  // removeAndResetChannel queues resetChannel.
  function Queue(s: Sys, c: Connector): Sys {
    s.(c := c, pending := if s.c.slot.Live? && c.slot.Removed? then s.pending + [ResetTask] else s.pending)
  }

  function UpCloses(s: Sys, again: bool, fd: Fd, errno: Errno): Sys {
    s.(c := if again then Restart(s.c, fd, errno, s.clock) else s.c, up := Nobody)
  }

  function RunTask(s: Sys, task: Task, again: bool, fd: Fd, errno: Errno): Sys {
    match task
    case StartTask => s.(c := StartInLoop(s.c, fd, errno, s.clock))
    case StopTask => Queue(s, StopInLoop(s.c, s.clock))
    case ResetTask => s.(c := ResetChannel(s.c))
    case CloseTask(f) => if !s.up.Nobody? && s.up.fd == f then UpCloses(s, again, fd, errno) else s
  }

  function RunHandler(s: Sys, h: Handler, outcome: Outcome): Sys {
    match h
    case OnError => Queue(s, HandleError(s.c, s.clock))
    case OnWrite =>
      var t := Queue(s, HandleWrite(s.c, outcome, s.clock));
      if |t.c.delivered| > |s.c.delivered| && s.c.slot.Live? then t.(up := New(s.c.slot.fd)) else t
  }

  function Apply(s: Sys, step: Step): Sys
    requires Can(s, step)
  {
    match step
    case Start(inLoop, fd, errno) =>
      var t := s.(c := s.c.(connect := true), started := true);
      if inLoop then t.(c := StartInLoop(t.c, fd, errno, s.clock)) else t.(pending := s.pending + [StartTask])
    case Stop => s.(c := s.c.(connect := false), pending := s.pending + [StopTask])
    case Poll(error, write, elapsed) =>
      s.(phase := Dispatching((if error then [OnError] else []) + (if write then [OnWrite] else [])),
         clock := s.clock + elapsed, iterStart := s.clock + elapsed,
         up := if s.up.New? then Settled(s.up.fd) else s.up)
    case HandleNext(outcome) =>
      RunHandler(s.(phase := Dispatching(s.phase.todo[1..])), s.phase.todo[0], outcome)
    case FireTimer(i, fd, errno) =>
      s.(c := StartInLoop(s.c.(timers := s.c.timers[..i] + s.c.timers[i + 1..]), fd, errno, s.clock))
    case CloseUp(again, fd, errno) => UpCloses(s, again, fd, errno)
    case QueueClose => s.(pending := s.pending + [CloseTask(s.up.fd)])
    case EndDispatch => s.(phase := Running, batch := s.pending, pending := [])
    case RunOne(again, fd, errno) => RunTask(s.(batch := s.batch[1..]), s.batch[0], again, fd, errno)
    case EndRun => s.(phase := Polling)
    case Elapse(ms) => s.(clock := s.clock + ms)
  }

  ghost predicate Possible(s: Sys, steps: seq<Step>, r: Rules)
    decreases |steps|
  {
    steps != [] ==> Enabled(s, steps[0], r) && Possible(Apply(s, steps[0]), steps[1..], r)
  }

  ghost function Exec(s: Sys, steps: seq<Step>, r: Rules): Sys
    requires Possible(s, steps, r)
    decreases |steps|
  {
    if steps == [] then s else Exec(Apply(s, steps[0]), steps[1..], r)
  }

  // ---- the queue ----

  function Waiting(s: Sys, t: Task): nat {
    Times(s.batch, t) + Times(s.pending, t)
  }

  /** No close of the connection on `fd` is queued ahead of a resetChannel. */
  ghost predicate ResetsFirst(queue: seq<Task>, fd: Fd) {
    forall i, j | 0 <= i < j < |queue| :: queue[i] == CloseTask(fd) ==> queue[j] != ResetTask
  }

  ghost predicate ClosesOf(tasks: seq<Task>, delivered: seq<Fd>) {
    forall t <- tasks | t.CloseTask? :: t.fd in delivered
  }

  // ---- the invariant ----

  ghost predicate Idle(s: Sys) {
    s.c.state.Disconnected? && s.c.slot.Empty? && s.c.timers == [] && s.up.Nobody?
  }

  // While a removed channel's object is still held, the retry is not due in this iteration; without politeness
  // the object may still be there in the next, and the retry is not due in that one either.
  ghost predicate Timed(s: Sys, r: Rules) {
    && s.iterStart <= s.clock <= s.iterStart + r.budget
    && (s.c.slot.Removed? && s.c.timers != [] ==>
          match s.phase
          case Polling => !r.polite && s.c.timers[0] >= s.iterStart + INIT_RETRY_DELAY_MS
          case Dispatching(_) => s.c.timers[0] + (if r.polite then 0 else r.budget) >= s.iterStart + INIT_RETRY_DELAY_MS
          case Running => ResetTask in s.batch || (!r.polite && s.c.timers[0] >= s.iterStart + INIT_RETRY_DELAY_MS))
    && (r.polite && StopQueued(s) ==> !s.c.connect)
  }

  /** Iterations are shorter than the first retry delay; without politeness, any two of them together are. */
  predicate Short(r: Rules) {
    (if r.polite then r.budget else 2 * r.budget) < INIT_RETRY_DELAY_MS
  }

  ghost predicate Shaped(s: Sys) {
    && !s.c.failed
    && (s.c.state.Connecting? <==> s.c.slot.Live?)
    && |s.c.timers| <= 1
    && (s.c.timers != [] ==> s.c.state.Disconnected? && s.up.Nobody?)
    && (!s.up.Nobody? ==> s.c.state.Connected? && s.up.fd in s.c.delivered)
    && (s.phase.Running? || s.batch == [])
    && (s.phase.Dispatching? && s.phase.todo != [] ==>
          !s.c.slot.Empty? && !s.c.state.Connected? && s.phase.todo in {[OnError], [OnWrite], [OnError, OnWrite]})
  }

  ghost predicate Queued(s: Sys) {
    && Waiting(s, ResetTask) == (if s.c.slot.Removed? then 1 else 0)
    && Waiting(s, StartTask) <= (if s.started then 1 else 0)
    && (!s.started || Waiting(s, StartTask) > 0 ==> Idle(s))
    && (s.up.Settled? ==> s.c.slot.Empty?)
    && (s.up.New? && s.c.slot.Removed? ==> s.phase.Dispatching? || (s.phase.Running? && ResetTask in s.batch))
    && (!s.up.Nobody? ==> ResetsFirst(s.batch + s.pending, s.up.fd))
    && ClosesOf(s.batch, s.c.delivered) && ClosesOf(s.pending, s.c.delivered)
  }

  ghost predicate Inv(s: Sys, r: Rules) {
    Shaped(s) && Queued(s) && Timed(s, r) && Conserved(s.c) && BacksOff(s.c)
  }

  // ---- what the pieces do to a connector ----

  // No channel, no retry outstanding, nothing open: ready for an attempt.
  ghost predicate Ready(c: Connector) {
    !c.failed && c.state.Disconnected? && c.slot.Empty? && c.timers == [] && Conserved(c) && BacksOff(c)
  }

  // A connector about which nothing more is assumed than between two of its own steps.
  ghost predicate Fine(c: Connector) {
    && !c.failed && (c.state.Connecting? <==> c.slot.Live?)
    && |c.timers| <= 1 && (c.timers != [] ==> c.state.Disconnected?)
    && Conserved(c) && BacksOff(c)
  }

  lemma Attempt(c: Connector, fd: Fd, errno: Errno, now: nat)
    requires Ready(c) && fd !in c.created
    ensures var d := StartInLoop(c, fd, errno, now);
      && Fine(d) && !d.slot.Removed? && !d.state.Connected? && d.delivered == c.delivered && d.connect == c.connect
  {
    if c.connect {
      ConnectConserves(c, fd, errno, now);
      RetryBacksOff(c.(created := c.created + [fd]), fd, now);
    }
  }

  lemma Dropped(c: Connector, now: nat)
    requires Fine(c) && c.state.Connecting?
    ensures var d := Drop(c, now);
      && Fine(d) && d.slot.Removed? && d.state.Disconnected? && d.delivered == c.delivered && d.connect == c.connect
      && (!d.connect ==> d.timers == [])
      && (d.timers != [] ==> d.timers[0] >= now + INIT_RETRY_DELAY_MS)
  {
    RemovedThenClosed(c, now);
    RetryBacksOff(Remove(c), c.slot.fd, now);
  }

  lemma Written(c: Connector, outcome: Outcome, now: nat)
    requires Fine(c) && !c.state.Connected?
    ensures var d := HandleWrite(c, outcome, now);
      && Fine(d)
      && (c.state.Disconnected? ==> d == c)
      && (c.state.Connecting? ==> d.slot.Removed? && (d.timers != [] ==> d.timers[0] >= now + INIT_RETRY_DELAY_MS))
      && d.connect == c.connect
      && (if |d.delivered| > |c.delivered| then c.state.Connecting? && d.state.Connected?
          && d.delivered == c.delivered + [c.slot.fd]
          else d.delivered == c.delivered)
  {
    if c.state.Connecting? {
      Dropped(c, now);
      WriteConserves(c, outcome, now);
    }
  }

  lemma Restarted(c: Connector, fd: Fd, errno: Errno, now: nat)
    requires Fine(c) && c.slot.Empty? && c.timers == [] && fd !in c.created
    ensures var d := Restart(c, fd, errno, now);
      && Fine(d) && !d.slot.Removed? && !d.state.Connected? && d.delivered == c.delivered
  {
    var e := c.(state := Disconnected, retryDelayMs := INIT_RETRY_DELAY_MS, connect := true, waits := []);
    assert forall x :: Places(e, x) == Places(c, x);
    Attempt(e, fd, errno, now);
  }

  lemma InvIsFine(s: Sys, r: Rules)
    requires Inv(s, r)
    ensures Fine(s.c)
    ensures Idle(s) ==> Ready(s.c)
  {
  }

  // ---- steps of the loop ----

  lemma PollStep(s: Sys, step: Step, r: Rules)
    requires Inv(s, r) && Enabled(s, step, r) && step.Poll?
    ensures Inv(Apply(s, step), r)
  {
    hide Conserved, BacksOff, ResetsFirst, ClosesOf;
    NoTimes(s.pending);
    TodoIs(step.error, step.write);
  }

  lemma TodoIs(error: bool, write: bool)
    ensures var todo := (if error then [OnError] else []) + (if write then [OnWrite] else []);
      todo == [] || todo in {[OnError], [OnWrite], [OnError, OnWrite]}
    ensures var todo := (if error then [OnError] else []) + (if write then [OnWrite] else []);
      todo != [] ==> error || write
  {
    assert [OnError] + [] == [OnError] && [] + [OnWrite] == [OnWrite];
    assert [OnError] + [OnWrite] == [OnError, OnWrite];
  }

  lemma LoopSteps(s: Sys, step: Step, r: Rules)
    requires Inv(s, r) && Enabled(s, step, r) && (step.EndDispatch? || step.EndRun? || step.Elapse?)
    ensures Inv(Apply(s, step), r)
  {
    hide Conserved, BacksOff, ResetsFirst, ClosesOf;
    TimesAppend([], ResetTask, ResetTask);
    TimesAppend([], StartTask, StartTask);
    NoTimes(s.pending);
    NoTimes(s.batch);
    NoCloses(s.c.delivered);
    assert [] + s.pending == s.pending && s.pending + [] == s.pending;
  }

  lemma NoTimes(tasks: seq<Task>)
    ensures Times(tasks, ResetTask) > 0 <==> ResetTask in tasks
    ensures tasks == [] ==> Times(tasks, ResetTask) == 0
  {
  }

  lemma NoCloses(delivered: seq<Fd>)
    ensures ClosesOf([], delivered)
  {
  }

  // Something harmless joins the queue.
  lemma Enqueued(s: Sys, task: Task, r: Rules)
    requires Inv(s, r) && (task.StopTask? || (task.CloseTask? && task.fd in s.c.delivered))
    requires r.polite && task.StopTask? ==> !s.c.connect
    ensures Inv(s.(pending := s.pending + [task]), r)
  {
    hide Conserved, BacksOff;
    TimesAppend(s.pending, task, ResetTask);
    TimesAppend(s.pending, task, StartTask);
    assert s.batch + (s.pending + [task]) == (s.batch + s.pending) + [task];
  }

  lemma ConnectFlag(s: Sys, on: bool, r: Rules)
    requires Inv(s, r) && (r.polite && StopQueued(s) ==> !on)
    ensures Inv(s.(c := s.c.(connect := on)), r)
  {
    assert forall x :: Places(s.c.(connect := on), x) == Places(s.c, x);
  }

  // ---- the other steps ----

  lemma OutsideSteps(s: Sys, step: Step, r: Rules)
    requires Inv(s, r) && Enabled(s, step, r) && (step.Stop? || step.QueueClose?)
    ensures Inv(Apply(s, step), r)
  {
    if step.Stop? {
      ConnectFlag(s, false, r);
      Enqueued(s.(c := s.c.(connect := false)), StopTask, r);
    } else {
      Enqueued(s, CloseTask(s.up.fd), r);
    }
  }

  // The connector has no channel and no retry, and nothing is open: an attempt may follow, and replace it.
  lemma Attempted(s: Sys, d: Connector, r: Rules)
    requires Inv(s, r) && s.started && Waiting(s, StartTask) == 0
    requires s.c.slot.Empty? && s.up.Nobody?
    requires Fine(d) && !d.slot.Removed? && !d.state.Connected? && d.delivered == s.c.delivered
    requires r.polite && StopQueued(s) ==> !d.connect
    ensures Inv(s.(c := d), r)
  {
    hide Conserved, BacksOff;
  }

  lemma StartStep(s: Sys, step: Step, r: Rules)
    requires Inv(s, r) && Enabled(s, step, r) && step.Start?
    ensures Inv(Apply(s, step), r)
  {
    InvIsFine(s, r);
    ConnectFlag(s, true, r);
    var t := s.(c := s.c.(connect := true));
    InvIsFine(t, r);
    if step.inLoop {
      Attempt(t.c, step.fd, step.errno, s.clock);
      Attempted(t.(started := true), StartInLoop(t.c, step.fd, step.errno, s.clock), r);
    } else {
      TimesAppend(s.pending, StartTask, ResetTask);
      TimesAppend(s.pending, StartTask, StartTask);
    }
  }

  lemma TimerStep(s: Sys, step: Step, r: Rules)
    requires Inv(s, r) && Enabled(s, step, r) && step.FireTimer? && Short(r)
    ensures Inv(Apply(s, step), r)
  {
    var c := s.c.(timers := s.c.timers[..step.i] + s.c.timers[step.i + 1..]);
    assert c.timers == [];
    assert forall x :: Places(c, x) == Places(s.c, x);
    assert s.c.slot.Empty?;
    Attempt(c, step.fd, step.errno, s.clock);
    Attempted(s, StartInLoop(c, step.fd, step.errno, s.clock), r);
  }

  // The delivered connection closes when no channel is held.
  lemma Closing(s: Sys, again: bool, fd: Fd, errno: Errno, r: Rules)
    requires Inv(s, r) && !s.up.Nobody? && s.c.slot.Empty? && NewFd(s, fd)
    requires r.polite && again ==> !StopQueued(s)
    ensures Inv(UpCloses(s, again, fd, errno), r)
  {
    InvIsFine(s, r);
    assert Inv(s.(up := Nobody), r);
    if again {
      Restarted(s.c, fd, errno, s.clock);
      Attempted(s.(up := Nobody), Restart(s.c, fd, errno, s.clock), r);
    }
  }

  // The channel is removed: resetChannel is queued, and the retry, if any, is a full delay away.
  lemma Resetting(s: Sys, d: Connector, r: Rules)
    requires Inv(s, r) && s.c.slot.Live?
    requires Fine(d) && d.slot.Removed? && d.delivered == s.c.delivered
    requires d.timers != [] ==> d.timers[0] >= s.clock + INIT_RETRY_DELAY_MS
    requires d.connect == s.c.connect && !s.phase.Polling? && (s.phase.Running? && r.polite ==> d.timers == [])
    requires s.phase.Dispatching? && s.phase.todo != [] ==> d.state.Disconnected?
    ensures Inv(Queue(s, d), r)
  {
    hide Conserved, BacksOff;
    TimesAppend(s.pending, ResetTask, ResetTask);
    TimesAppend(s.pending, ResetTask, StartTask);
  }

  lemma NotYetDelivered(c: Connector, tasks: seq<Task>)
    requires Conserved(c) && c.slot.Live? && ClosesOf(tasks, c.delivered)
    ensures CloseTask(c.slot.fd) !in tasks && c.slot.fd !in c.delivered
  {
    assert Places(c, c.slot.fd) <= 1;
  }

  // The channel is removed and its socket handed over.
  lemma Delivering(s: Sys, d: Connector, r: Rules)
    requires Inv(s, r) && s.c.slot.Live? && s.phase.Dispatching? && s.phase.todo == []
    requires Fine(d) && d.slot.Removed? && d.state.Connected? && d.delivered == s.c.delivered + [s.c.slot.fd]
    requires d.connect == s.c.connect
    ensures Inv(Queue(s, d).(up := New(s.c.slot.fd)), r)
  {
    NotYetDelivered(s.c, s.pending);
    hide Conserved, BacksOff, Idle;
    TimesAppend(s.pending, ResetTask, ResetTask);
    TimesAppend(s.pending, ResetTask, StartTask);
    assert s.batch + (s.pending + [ResetTask]) == s.pending + [ResetTask];
  }

  lemma NextTodo(s: Sys, r: Rules)
    requires Inv(s, r) && s.phase.Dispatching? && s.phase.todo != []
    ensures Inv(s.(phase := Dispatching(s.phase.todo[1..])), r)
    ensures s.phase.todo[0] == OnWrite ==> s.phase.todo[1..] == []
    ensures s.phase.todo[1..] == [] || s.phase.todo[1..] == [OnWrite]
  {
    assert [OnError][1..] == [] && [OnWrite][1..] == [] && [OnError, OnWrite][1..] == [OnWrite];
  }

  lemma HandlerStep(s: Sys, step: Step, r: Rules)
    requires Inv(s, r) && Enabled(s, step, r) && step.HandleNext?
    ensures Inv(Apply(s, step), r)
  {
    NextTodo(s, r);
    InvIsFine(s, r);
    var t, h := s.(phase := Dispatching(s.phase.todo[1..])), s.phase.todo[0];
    if !s.c.state.Connecting? {
      assert RunHandler(t, h, step.outcome) == t;
    } else if h.OnError? {
      Dropped(t.c, t.clock);
      Resetting(t, HandleError(t.c, t.clock), r);
    } else {
      var d := HandleWrite(t.c, step.outcome, t.clock);
      Written(t.c, step.outcome, t.clock);
      if |d.delivered| > |t.c.delivered| { Delivering(t, d, r); } else { Resetting(t, d, r); }
    }
  }

  // ---- functors ----

  // The head of the batch is taken, and is neither start nor reset.
  lemma Popped(s: Sys, r: Rules)
    requires Inv(s, r) && s.phase.Running? && s.batch != [] && (s.batch[0].StopTask? || s.batch[0].CloseTask?)
    ensures Inv(s.(batch := s.batch[1..]), r)
  {
    hide Conserved, BacksOff;
    TimesHead(s.batch, ResetTask);
    TimesHead(s.batch, StartTask);
    assert s.batch == [s.batch[0]] + s.batch[1..];
    assert s.batch[1..] + s.pending == (s.batch + s.pending)[1..];
  }

  lemma TaskTaken(s: Sys, r: Rules)
    requires Inv(s, r) && s.phase.Running? && s.batch != [] && s.batch[0] == StartTask
    ensures Inv(s.(batch := s.batch[1..]), r) && Idle(s) && s.started
    ensures Waiting(s.(batch := s.batch[1..]), StartTask) == 0
  {
    hide Conserved, BacksOff;
    TimesHead(s.batch, ResetTask);
    TimesHead(s.batch, StartTask);
  }

  lemma StartTaskStep(s: Sys, fd: Fd, errno: Errno, r: Rules)
    requires Inv(s, r) && s.phase.Running? && s.batch != [] && s.batch[0] == StartTask && NewFd(s, fd)
    ensures Inv(RunTask(s.(batch := s.batch[1..]), StartTask, false, fd, errno), r)
  {
    var t := s.(batch := s.batch[1..]);
    TaskTaken(s, r);
    Attempt(t.c, fd, errno, t.clock);
    Attempted(t, StartInLoop(t.c, fd, errno, t.clock), r);
  }

  lemma ResetTaskStep(s: Sys, r: Rules)
    requires Inv(s, r) && s.phase.Running? && s.batch != [] && s.batch[0] == ResetTask
    ensures Inv(s.(batch := s.batch[1..], c := ResetChannel(s.c)), r)
  {
    TimesHead(s.batch, ResetTask);
    TimesHead(s.batch, StartTask);
    assert forall x :: Places(ResetChannel(s.c), x) == Places(s.c, x);
    assert s.batch[1..] + s.pending == (s.batch + s.pending)[1..];
  }

  lemma CloseFindsNoChannel(s: Sys, r: Rules)
    requires Inv(s, r) && s.batch != [] && !s.up.Nobody? && s.batch[0] == CloseTask(s.up.fd)
    ensures s.c.slot.Empty?
  {
    var queue := s.batch + s.pending;
    assert queue[0] == s.batch[0];
    assert forall j | 0 < j < |queue| :: queue[j] != ResetTask;
    assert ResetTask !in queue;
    NoTimes(s.batch);
    NoTimes(s.pending);
    assert ResetTask in s.pending ==> ResetTask in queue;
    assert ResetTask in s.batch ==> ResetTask in queue;
  }

  lemma FunctorStep(s: Sys, step: Step, r: Rules)
    requires Inv(s, r) && Enabled(s, step, r) && step.RunOne?
    ensures Inv(Apply(s, step), r)
  {
    var t := s.(batch := s.batch[1..]);
    assert StopQueued(t) ==> StopQueued(s);
    match s.batch[0]
    case StartTask => StartTaskStep(s, step.fd, step.errno, r);
    case ResetTask => ResetTaskStep(s, r);
    case StopTask =>
      Popped(s, r);
      if s.c.state.Connecting? {
        InvIsFine(s, r);
        Dropped(t.c, t.clock);
        assert s.batch[0] in s.batch;
        Resetting(t, StopInLoop(t.c, t.clock), r);
      }
    case CloseTask(f) =>
      Popped(s, r);
      if !s.up.Nobody? && s.up.fd == f {
        CloseFindsNoChannel(s, r);
        Closing(t, step.again, step.fd, step.errno, r);
      }
  }

  lemma SettledHoldsNone(s: Sys, r: Rules)
    requires Inv(s, r) && s.up.Settled?
    ensures s.c.slot.Empty?
  {
  }

  lemma StepKeepsInv(s: Sys, step: Step, r: Rules)
    requires Inv(s, r) && Enabled(s, step, r) && Short(r)
    ensures Inv(Apply(s, step), r)
  {
    hide Inv;
    match step
    case Start(_, _, _) => StartStep(s, step, r);
    case Stop => OutsideSteps(s, step, r);
    case Poll(_, _, _) => PollStep(s, step, r);
    case HandleNext(_) => HandlerStep(s, step, r);
    case FireTimer(_, _, _) => TimerStep(s, step, r);
    case CloseUp(again, fd, errno) =>
      SettledHoldsNone(s, r);
      Closing(s, again, fd, errno, r);
    case QueueClose => OutsideSteps(s, step, r);
    case RunOne(_, _, _) => FunctorStep(s, step, r);
    case EndDispatch => LoopSteps(s, step, r);
    case EndRun => LoopSteps(s, step, r);
    case Elapse(_) => LoopSteps(s, step, r);
  }

  // ---- every run ----

  lemma BeginHoldsInv(s: Sys, r: Rules)
    requires s == Begin
    ensures Inv(s, r)
  {
    FreshIsConserved(s.c);
    AtRest(s, r);
    hide Conserved, BacksOff, Shaped, Queued, Timed;
  }

  lemma AtRest(s: Sys, r: Rules)
    requires s.phase.Running? && s.batch == [] && s.pending == [] && !s.started && s.up.Nobody?
        && s.clock == s.iterStart
    requires !s.c.failed && s.c.state.Disconnected? && s.c.slot.Empty? && s.c.timers == []
    ensures Shaped(s) && Queued(s) && Timed(s, r)
  {
    NothingQueued(s);
    hide Queued;
  }

  lemma NothingQueued(s: Sys)
    requires s.batch == [] && s.pending == [] && Idle(s) && !s.started
    ensures Queued(s)
  {
    TimesAppend([], ResetTask, ResetTask);
    TimesAppend([], StartTask, StartTask);
  }

  lemma FreshIsConserved(c: Connector)
    requires c == Fresh
    ensures Conserved(c) && BacksOff(c)
  {
    assert Power2(0) == 1;
  }

  lemma {:induction false} RunKeepsInv(s: Sys, steps: seq<Step>, r: Rules)
    requires Inv(s, r) && Possible(s, steps, r) && Short(r)
    ensures Inv(Exec(s, steps, r), r)
    decreases |steps|
  {
    if steps != [] {
      StepKeepsInv(s, steps[0], r);
      RunKeepsInv(Apply(s, steps[0]), steps[1..], r);
    }
  }

  /** At most one retry outstanding, only while disconnected; connecting exactly while a channel is registered. */
  lemma ConnectorSafety(steps: seq<Step>, r: Rules)
    requires Possible(Begin, steps, r) && Short(r)
    ensures var c := Exec(Begin, steps, r).c;
      && !c.failed
      && (c.state.Connecting? <==> c.slot.Live?)
      && |c.timers| <= 1 && (c.timers != [] ==> c.state.Disconnected?)
      && c.retryDelayMs == Backoff(|c.waits|) && forall k | 0 <= k < |c.waits| :: c.waits[k] == Backoff(k)
  {
    Reached(Begin, steps, r);
  }

  lemma Reached(s: Sys, steps: seq<Step>, r: Rules)
    requires s == Begin && Possible(s, steps, r) && Short(r)
    ensures Inv(Exec(s, steps, r), r)
  {
    hide *;
    BeginHoldsInv(s, r);
    RunKeepsInv(s, steps, r);
  }

  /** Every socket ever made is in the channel, or was handed over once, or was closed once: exactly one of them. */
  lemma SocketsConserved(steps: seq<Step>, r: Rules)
    requires Possible(Begin, steps, r) && Short(r)
    ensures var c := Exec(Begin, steps, r).c; forall fd <- c.created ::
      (if c.slot == Live(fd) then 1 else 0) + multiset(c.delivered)[fd] + multiset(c.closed)[fd] == 1
  {
    Reached(Begin, steps, r);
    var c := Exec(Begin, steps, r).c;
    assert forall fd <- c.created :: Places(c, fd) == 1;
  }

  lemma {:induction false} Then(s: Sys, steps: seq<Step>, step: Step, r: Rules)
    requires Possible(s, steps, r) && Enabled(Exec(s, steps, r), step, r)
    ensures Possible(s, steps + [step], r)
    ensures Exec(s, steps + [step], r) == Apply(Exec(s, steps, r), step)
    decreases |steps|
  {
    if steps == [] {
      assert [] + [step] == [step] && [step][1..] == [];
    } else {
      Then(Apply(s, steps[0]), steps[1..], step, r);
      assert (steps + [step])[0] == steps[0] && (steps + [step])[1..] == steps[1..] + [step];
    }
  }

  lemma Extend(steps: seq<Step>, t: Sys, step: Step, r: Rules) returns (longer: seq<Step>, u: Sys)
    requires Possible(Begin, steps, r) && Exec(Begin, steps, r) == t && Enabled(t, step, r)
    ensures Possible(Begin, longer, r) && Exec(Begin, longer, r) == u && u == Apply(t, step)
  {
    Then(Begin, steps, step, r);
    longer, u := steps + [step], Apply(t, step);
  }

  // A connection is made and delivered.
  lemma Delivered(r: Rules) returns (steps: seq<Step>, t: Sys)
    ensures Possible(Begin, steps, r) && Exec(Begin, steps, r) == t
    ensures t.phase == Dispatching([]) && t.batch == [] && t.pending == [ResetTask] && t.up == New(1) && t.started
    ensures t.clock == t.iterStart == 0
    ensures t.c.state.Connected? && t.c.slot == Removed(1) && t.c.created == [1] && t.c.timers == []
    ensures t.c.connect && !t.c.failed && t.c.retryDelayMs == INIT_RETRY_DELAY_MS
  {
    steps, t := [], Begin;
    assert Possible(Begin, steps, r) && Exec(Begin, steps, r) == t;
    hide Possible, Exec;
    steps, t := Extend(steps, t, Start(true, 1, EINPROGRESS), r);
    steps, t := Extend(steps, t, EndRun, r);
    steps, t := Extend(steps, t, Poll(false, true, 0), r);
    assert t.phase == Dispatching([OnWrite]);
    steps, t := Extend(steps, t, HandleNext(Established), r);
  }

  // Its channel is destroyed, and the next iteration begins.
  lemma Opened(r: Rules) returns (steps: seq<Step>, t: Sys)
    ensures Possible(Begin, steps, r) && Exec(Begin, steps, r) == t
    ensures t.phase == Dispatching([]) && t.batch == [] && t.pending == [] && t.up == Settled(1) && t.started
    ensures t.clock == t.iterStart == 0
    ensures t.c.state.Connected? && t.c.slot.Empty? && t.c.created == [1] && t.c.timers == []
    ensures t.c.connect && !t.c.failed && t.c.retryDelayMs == INIT_RETRY_DELAY_MS
  {
    steps, t := Delivered(r);
    hide Possible, Exec;
    steps, t := Extend(steps, t, EndDispatch, r);
    steps, t := Extend(steps, t, RunOne(false, 2, OK), r);
    assert t.batch == [];
    steps, t := Extend(steps, t, EndRun, r);
    steps, t := Extend(steps, t, Poll(false, false, 0), r);
  }

  // stop() comes first, the connection closes, the client restarts, and only then does stopInLoop run: the new
  // channel is removed, and its retry set, after the functors of this iteration were taken. The next iteration is
  // not over when the retry is due.
  lemma Overrun(r: Rules) returns (steps: seq<Step>)
    requires 2 * r.budget >= INIT_RETRY_DELAY_MS && !r.polite
    ensures Possible(Begin, steps, r) && Exec(Begin, steps, r).c.failed
  {
    var t: Sys;
    steps, t := Opened(r);
    hide Possible, Exec;
    steps, t := Extend(steps, t, Stop, r);
    steps, t := Extend(steps, t, CloseUp(true, 2, EINPROGRESS), r);
    steps, t := Extend(steps, t, EndDispatch, r);
    assert t.batch == [StopTask] && t.c.slot == Live(2);
    steps, t := Extend(steps, t, RunOne(false, 3, OK), r);
    assert t.batch == [] && t.c.slot == Removed(2) && t.c.timers == [500];
    steps := Overslept(steps, t, r);
  }

  // The socket fails at the start of an iteration.
  lemma Failed(r: Rules) returns (steps: seq<Step>, t: Sys)
    ensures Possible(Begin, steps, r) && Exec(Begin, steps, r) == t
    ensures t.phase == Dispatching([]) && t.batch == [] && t.c.slot.Removed? && t.c.timers == [500]
        && t.c.created == [1]
    ensures t.c.connect && t.clock == t.iterStart == 0
  {
    steps, t := [], Begin;
    assert Possible(Begin, steps, r) && Exec(Begin, steps, r) == t;
    hide Possible, Exec;
    steps, t := Extend(steps, t, Start(true, 1, EINPROGRESS), r);
    steps, t := Extend(steps, t, EndRun, r);
    steps, t := Extend(steps, t, Poll(true, false, 0), r);
    assert t.phase == Dispatching([OnError]);
    steps, t := Extend(steps, t, HandleNext(SocketError), r);
  }

  // That iteration is not over when the retry is due.
  lemma OverrunAtOnce(r: Rules) returns (steps: seq<Step>)
    requires r.budget >= INIT_RETRY_DELAY_MS
    ensures Possible(Begin, steps, r) && Exec(Begin, steps, r).c.failed
  {
    var t: Sys;
    steps, t := Failed(r);
    hide Possible, Exec;
    steps, t := Extend(steps, t, Elapse(r.budget), r);
    steps, t := Extend(steps, t, FireTimer(0, 2, EINPROGRESS), r);
  }

  lemma Overslept(before: seq<Step>, s: Sys, r: Rules) returns (steps: seq<Step>)
    requires Possible(Begin, before, r) && Exec(Begin, before, r) == s
    requires s.phase.Running? && s.batch == [] && s.pending == [ResetTask] && s.clock == s.iterStart == 0
    requires s.c.slot.Removed? && s.c.timers == [500] && s.c.created == [1, 2] && s.c.connect
    requires 2 * r.budget >= INIT_RETRY_DELAY_MS && !r.polite
    ensures Possible(Begin, steps, r) && Exec(Begin, steps, r).c.failed
  {
    hide Possible, Exec;
    var t: Sys;
    steps, t := Extend(before, s, Elapse(r.budget), r);
    steps, t := Extend(steps, t, EndRun, r);
    steps, t := Extend(steps, t, Poll(false, false, 0), r);
    steps, t := Extend(steps, t, Elapse(r.budget), r);
    steps, t := Extend(steps, t, FireTimer(0, 3, EINPROGRESS), r);
  }

  /** No assertion fails in any run exactly when iterations are shorter than the first retry delay, or half as long
      when the client may restart while a stopInLoop is queued. */
  lemma ConnectorSafeIff(r: Rules)
    ensures (forall steps :: Possible(Begin, steps, r) ==> !Exec(Begin, steps, r).c.failed) <==> Short(r)
  {
    if Short(r) {
      forall steps | Possible(Begin, steps, r) ensures !Exec(Begin, steps, r).c.failed {
        ConnectorSafety(steps, r);
      }
    } else if r.polite {
      var steps := OverrunAtOnce(r);
    } else {
      var steps := Overrun(r);
    }
  }

  // ---- stop ----

  predicate NoRestart(step: Step) {
    !step.Start? && (step.CloseUp? || step.RunOne? ==> !step.again)
  }

  // Nothing new may be made, and what is being made will be dropped.
  ghost predicate Winding(s: Sys) {
    !s.c.connect && (s.c.slot.Live? ==> StopTask in s.batch || StopTask in s.pending)
  }

  lemma WindsDown(s: Sys, step: Step, r: Rules)
    requires Inv(s, r) && Winding(s) && Enabled(s, step, r) && NoRestart(step)
    ensures var t := Apply(s, step);
      Winding(t) && t.c.created == s.c.created && t.c.delivered == s.c.delivered
  {
    hide Queued, Timed, Conserved, BacksOff;
    if step.RunOne? {
      assert s.batch == [s.batch[0]] + s.batch[1..];
    }
  }

  lemma {:induction false} WindingRun(s: Sys, steps: seq<Step>, r: Rules)
    requires Inv(s, r) && Winding(s) && Possible(s, steps, r) && Short(r)
    requires forall step <- steps :: NoRestart(step)
    ensures var t := Exec(s, steps, r);
      Winding(t) && t.c.created == s.c.created && t.c.delivered == s.c.delivered
    decreases |steps|
  {
    if steps != [] {
      StepKeepsInv(s, steps[0], r);
      WindsDown(s, steps[0], r);
      WindingRun(Apply(s, steps[0]), steps[1..], r);
    }
  }

  /** After stop(), and until the client starts again, no socket is made or handed over; and once no stopInLoop is
      queued any more, every socket not handed over is closed. */
  lemma StopIsFinal(before: seq<Step>, after: seq<Step>, r: Rules)
    requires Short(r) && Possible(Begin, before, r)
    requires Possible(Apply(Exec(Begin, before, r), Stop), after, r)
    requires forall step <- after :: NoRestart(step)
    ensures var s := Exec(Begin, before, r);
      var t := Exec(Apply(s, Stop), after, r);
      && t.c.created == s.c.created && t.c.delivered == s.c.delivered
      && (StopTask !in t.batch && StopTask !in t.pending ==>
            forall fd <- t.c.created :: multiset(t.c.delivered)[fd] + multiset(t.c.closed)[fd] == 1)
  {
    var s := Exec(Begin, before, r);
    Reached(Begin, before, r);
    Finally(s, after, r);
  }

  lemma Finally(s: Sys, after: seq<Step>, r: Rules)
    requires Short(r) && Inv(s, r)
    requires Possible(Apply(s, Stop), after, r)
    requires forall step <- after :: NoRestart(step)
    ensures var t := Exec(Apply(s, Stop), after, r);
      && t.c.created == s.c.created && t.c.delivered == s.c.delivered
      && (StopTask !in t.batch && StopTask !in t.pending ==>
            forall fd <- t.c.created :: multiset(t.c.delivered)[fd] + multiset(t.c.closed)[fd] == 1)
  {
    StepKeepsInv(s, Stop, r);
    hide Exec, Possible, Shaped, Queued, Timed, BacksOff;
    WindingRun(Apply(s, Stop), after, r);
    RunKeepsInv(Apply(s, Stop), after, r);
    var t := Exec(Apply(s, Stop), after, r);
    assert forall fd <- t.c.created :: Places(t.c, fd) == 1;
  }
}
