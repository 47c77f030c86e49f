/** The graceful half-close: shutdownWrite waits for the output buffer, and the functor queue keeps it behind
    the messages sent before it. Holds for a caller in the loop thread; for a caller in another thread exactly
    when the buffer cannot drain before the queued shutdown runs. */
module HalfClose {
  import opened Connection
  import opened ConnectionRuns
  import opened ConnectionLife
  import opened Queues
  import I = Interest

  /** Careful, and shutdown is called only while connected: what its guard is documented to say. */
  ghost predicate Proper(s: Sys, step: Step)
    requires Enabled(s, step)
  {
    Careful(s, step) && (step.Shutdown? ==> s.conn.state.Connected?)
  }

  ghost predicate ProperRun(s: Sys, steps: seq<Step>)
    decreases |steps|
  {
    steps != [] ==> Enabled(s, steps[0]) && Proper(s, steps[0]) && ProperRun(Apply(s, steps[0]), steps[1..])
  }

  lemma {:induction false} ProperIsCareful(s: Sys, steps: seq<Step>)
    requires ProperRun(s, steps)
    ensures CarefulRun(s, steps) && Possible(s, steps)
    decreases |steps|
  {
    if steps != [] { ProperIsCareful(Apply(s, steps[0]), steps[1..]); }
  }

  // ---- after shutdownWrite ----

  lemma TaskAfterFin(c: Conn, task: Task, asked: WriteResult)
    requires c.fins > 0
    ensures RunTask(c, task, asked).wire == c.wire && RunTask(c, task, asked).fins > 0
  {
  }

  lemma HandlerAfterFin(c: Conn, h: Handler, read: ReadResult, asked: WriteResult)
    requires c.fins > 0
    ensures RunHandler(c, h, read, asked).wire == c.wire && RunHandler(c, h, read, asked).fins > 0
  {
  }

  lemma NothingAfterFinStep(s: Sys, step: Step)
    requires s.conn.fins > 0 && Enabled(s, step)
    ensures Apply(s, step).conn.wire == s.conn.wire && Apply(s, step).conn.fins > 0
  {
    hide SendInLoop, RunTask, RunHandler;
    match step
    case Send(data, _, asked) => TaskAfterFin(s.conn, SendTask(data), asked); SendIsATask(s.conn, data, asked);
    case Handle(read, asked) => HandlerAfterFin(s.conn, s.phase.todo[0], read, asked);
    case RunOne(asked) => TaskAfterFin(s.conn, s.batch[0], asked);
    case _ =>
  }

  /** In every run, no byte is written after shutdownWrite. */
  lemma {:induction false} NothingAfterFin(s: Sys, steps: seq<Step>)
    requires s.conn.fins > 0 && Possible(s, steps)
    ensures Exec(s, steps).conn.wire == s.conn.wire
    decreases |steps|
  {
    if steps != [] {
      NothingAfterFinStep(s, steps[0]);
      NothingAfterFin(Apply(s, steps[0]), steps[1..]);
    }
  }

  // ---- before shutdown ----

  // Neither a shutdown nor a close.
  predicate Mild(t: Task) {
    t.SendTask? || t.StartReadTask? || t.StopReadTask?
  }

  ghost predicate OnlyMild(tasks: seq<Task>) {
    forall t <- tasks :: Mild(t)
  }

  ghost predicate CloseFirst(todo: seq<Handler>) {
    forall i | 0 < i < |todo| :: !todo[i].OnClose?
  }

  /** Until somebody asks to close, nothing but sends and reading is queued and nothing has been half-closed. */
  ghost predicate Before(s: Sys) {
    && LifeInv(s)
    && CloseFirst(Todo(s.phase))
    && (s.conn.state.Connecting? || s.conn.state.Connected? ==> s.conn.fins == 0 && s.conn.lost == 0)
    && (s.conn.state.Connected? ==> OnlyMild(s.batch) && OnlyMild(s.pending))
  }

  lemma BeforeStart()
    ensures Before(Start)
  {
    StartLives();
  }

  ghost predicate Untouched(c: Conn) {
    c.state.Connected? && c.fins == 0 && c.lost == 0
  }

  lemma ConnBefore(c: Conn, data: seq<Byte>, asked: WriteResult)
    requires Untouched(c)
    ensures Untouched(SendInLoop(c, data, asked)) && Untouched(HandleWrite(c, asked))
    ensures Untouched(StartReadInLoop(c)) && Untouched(StopReadInLoop(c))
  {
  }

  lemma StepKeepsBefore(s: Sys, step: Step)
    requires Before(s) && Enabled(s, step) && Proper(s, step)
    ensures Before(Apply(s, step))
  {
    StepKeepsLife(s, step);
    hide Before, LifeInv, Careful;
    match step
    case Handle(read, asked) => HandleKeepsBefore(s, read, asked);
    case RunOne(asked) => RunOneKeepsBefore(s, asked);
    case Poll(_) => QuietStepKeepsBefore(s, step);
    case EndDispatch => QuietStepKeepsBefore(s, step);
    case EndRun => QuietStepKeepsBefore(s, step);
    case Send(_, _, _) => MildCallKeepsBefore(s, step);
    case StartRead(_) => MildCallKeepsBefore(s, step);
    case StopRead(_) => MildCallKeepsBefore(s, step);
    case _ => LeavingCallKeepsBefore(s, step);
  }

  lemma QuietStepKeepsBefore(s: Sys, step: Step)
    requires Before(s) && Enabled(s, step) && LifeInv(Apply(s, step))
    requires step.Poll? || step.EndDispatch? || step.EndRun?
    ensures Before(Apply(s, step))
  {
    MoreMild(s.pending, []);
    if step.Poll? { HandlersCloseFirst(step.revents); }
    hide LifeInv, Handlers, CloseFirst, OnlyMild;
    assert CloseFirst([]) by { NothingFirst(); }
  }

  lemma NothingFirst()
    ensures CloseFirst([])
  {
  }

  lemma MildCallKeepsBefore(s: Sys, step: Step)
    requires Before(s) && Enabled(s, step) && LifeInv(Apply(s, step))
        && (step.Send? || step.StartRead? || step.StopRead?)
    ensures Before(Apply(s, step))
  {
    Facts(s);
    hide LifeInv, Life, SendInLoop, StartReadInLoop, StopReadInLoop, CloseFirst, OnlyMild, Alive, Shut, Unborn, Waiting;
    var data, asked := if step.Send? then step.data else [], if step.Send? then step.asked else WouldBlock;
    if s.conn.state.Connected? { ConnBefore(s.conn, data, asked); }
    CallKeepsState(s.conn, data, asked);
    MoreMild(s.pending, data);
  }

  lemma CallKeepsState(c: Conn, data: seq<Byte>, asked: WriteResult)
    ensures SendInLoop(c, data, asked).state == StartReadInLoop(c).state == StopReadInLoop(c).state == c.state
  {
  }

  // The connection is not connected afterwards, or nothing happened.
  lemma LeavingCallKeepsBefore(s: Sys, step: Step)
    requires Before(s) && Enabled(s, step) && LifeInv(Apply(s, step))
    requires step.Shutdown? || step.ForceClose? || step.QueueDestroy?
    ensures Before(Apply(s, step))
  {
    Facts(s);
    hide LifeInv, Life, CloseFirst, OnlyMild, Alive, Shut, Unborn, Waiting;
  }

  lemma HandlersCloseFirst(revents: set<I.Event>)
    ensures CloseFirst(Handlers(revents))
  {
  }

  lemma MoreMild(tasks: seq<Task>, data: seq<Byte>)
    ensures OnlyMild(tasks) ==> forall t: Task | Mild(t) :: OnlyMild(tasks + [t])
    ensures OnlyMild([])
  {
  }

  lemma HandleKeepsBefore(s: Sys, read: ReadResult, asked: WriteResult)
    requires Before(s) && Enabled(s, Handle(read, asked)) && LifeInv(Apply(s, Handle(read, asked)))
    ensures Before(Apply(s, Handle(read, asked)))
  {
    Facts(s);
    Facts(Apply(s, Handle(read, asked)));
    hide LifeInv, HandleWrite, Life;
    if s.conn.state.Connected? { ConnBefore(s.conn, [], asked); }
    WriteKeepsState(s.conn, asked);
  }

  lemma WriteKeepsState(c: Conn, asked: WriteResult)
    ensures HandleWrite(c, asked).state == c.state
    ensures !Writing(c) ==> HandleWrite(c, asked) == c
  {
  }

  // A functor of a connection that has been reported up.
  lemma MildTaskKeepsBefore(c: Conn, task: Task, asked: WriteResult)
    requires Untouched(c) && Mild(task)
    ensures Untouched(RunTask(c, task, asked))
  {
    ConnBefore(c, if task.SendTask? then task.data else [], asked);
    hide SendInLoop, StartReadInLoop, StopReadInLoop;
  }

  lemma RunOneConnected(s: Sys, asked: WriteResult)
    requires Before(s) && Enabled(s, RunOne(asked)) && LifeInv(Apply(s, RunOne(asked))) && s.conn.state.Connected?
    ensures Before(Apply(s, RunOne(asked)))
  {
    assert s.batch[0] in s.batch && forall t <- s.batch[1..] :: t in s.batch;
    MildTaskKeepsBefore(s.conn, s.batch[0], asked);
    hide LifeInv, RunTask, CloseFirst;
  }

  lemma RunOneConnecting(s: Sys, asked: WriteResult)
    requires Before(s) && Enabled(s, RunOne(asked)) && LifeInv(Apply(s, RunOne(asked))) && s.conn.state.Connecting?
    ensures Before(Apply(s, RunOne(asked)))
  {
    EstablishAlone(s, asked);
    MoreMild([], []);
    hide LifeInv, CloseFirst;
  }

  // A connection on its way out does not come back.
  lemma RunOneLeaving(s: Sys, asked: WriteResult)
    requires Before(s) && Enabled(s, RunOne(asked)) && LifeInv(Apply(s, RunOne(asked)))
    requires Rank(s.conn.state) <= Rank(Apply(s, RunOne(asked)).conn.state)
    requires s.conn.state.Disconnecting? || s.conn.state.Disconnected?
    ensures Before(Apply(s, RunOne(asked)))
  {
    hide LifeInv, RunTask, CloseFirst, OnlyMild;
  }

  lemma RunOneKeepsBefore(s: Sys, asked: WriteResult)
    requires Before(s) && Enabled(s, RunOne(asked)) && LifeInv(Apply(s, RunOne(asked)))
    requires Rank(s.conn.state) <= Rank(Apply(s, RunOne(asked)).conn.state)
    ensures Before(Apply(s, RunOne(asked)))
  {
    hide LifeInv, Before, Apply;
    if s.conn.state.Connected? {
      RunOneConnected(s, asked);
    } else if s.conn.state.Connecting? {
      RunOneConnecting(s, asked);
    } else {
      RunOneLeaving(s, asked);
    }
  }

  lemma SendKeepsState(c: Conn, data: seq<Byte>, asked: WriteResult)
    ensures SendInLoop(c, data, asked).state == c.state
  {
  }

  // When the connection comes up its functor was the only one.
  lemma EstablishAlone(s: Sys, asked: WriteResult)
    requires LifeInv(s) && s.phase.Running? && s.batch != []
    ensures s.conn.state.Connecting? ==> s.batch[0].Establish? && s.batch[1..] == [] && s.pending == []
    ensures s.batch[0].Establish? ==> s.conn.state.Connecting?
  {
    assert s.batch[0] in s.batch;
    TimesHead(s.batch, Establish);
    if s.conn.state.Connecting? {
      if |s.batch| > 1 {
        assert s.batch[1] in s.batch;
        TimesHead(s.batch[1..], Establish);
      }
      if |s.pending| > 0 {
        assert s.pending[0] in s.pending;
        TimesHead(s.pending, Establish);
      }
    }
  }

  lemma {:induction false} RunKeepsBefore(s: Sys, steps: seq<Step>)
    requires Before(s) && ProperRun(s, steps)
    ensures Possible(s, steps) && Before(Exec(s, steps))
    decreases |steps|
  {
    ProperIsCareful(s, steps);
    if steps != [] {
      StepKeepsBefore(s, steps[0]);
      RunKeepsBefore(Apply(s, steps[0]), steps[1..]);
    }
  }

  // ---- shutdown from the loop thread ----

  /** The connection has been asked to shut down, and no message or queued shutdown is on its way: it is closed, or it
      has been half-closed, once and once more for each later call on a drained connection (`again`), exactly if its
      buffer is empty. */
  ghost predicate Settled(s: Sys, again: nat) {
    && !s.conn.state.Connecting? && !s.conn.state.Connected?
    && NoneLeft(s.batch) && NoneLeft(s.pending)
    && s.conn.lost == 0
    && (if again > 0 then s.conn.fins == again + 1 else s.conn.fins <= 1)
    && (Open(s.conn) ==> (s.conn.fins > 0 <==> s.conn.output == []))
  }

  // Neither a message nor a shutdown.
  ghost predicate NoneLeft(tasks: seq<Task>) {
    forall t <- tasks :: t.ForceCloseTask? || t.Destroy? || t.StartReadTask? || t.StopReadTask?
  }

  lemma MoreLeft(tasks: seq<Task>)
    ensures NoneLeft(tasks) ==> NoneLeft(tasks + [ForceCloseTask]) && NoneLeft(tasks + [Destroy])
    ensures NoneLeft(tasks) ==> NoneLeft(tasks + [StartReadTask]) && NoneLeft(tasks + [StopReadTask])
    ensures NoneLeft([])
  {
  }

  /** A call of shutdown that half-closes a connection which has been half-closed already. */
  predicate Repeats(s: Sys, step: Step) {
    step.Shutdown? && s.conn.output == []
  }

  function CountRepeats(s: Sys, steps: seq<Step>): nat
    requires Possible(s, steps)
    decreases |steps|
  {
    if steps == [] then 0
    else (if Repeats(s, steps[0]) then 1 else 0) + CountRepeats(Apply(s, steps[0]), steps[1..])
  }

  lemma WriteStaysSettled(c: Conn, asked: WriteResult)
    requires c.state.Disconnecting? && Watching(c) && c.lost == 0 && (c.fins > 0 <==> c.output == [])
    ensures var d := HandleWrite(c, asked);
      && d.state == c.state && d.lost == 0 && d.log == c.log && (d.fins > 0 <==> d.output == [])
      && d.fins == if c.output != [] && d.output == [] then 1 else c.fins
  {
    WriteKeeps(c, asked);
  }

  lemma StaysSettled(s: Sys, again: nat, step: Step)
    requires Settled(s, again) && LifeInv(s) && Enabled(s, step) && Careful(s, step) && (step.Shutdown? ==> step.inLoop)
    ensures Settled(Apply(s, step), again + if Repeats(s, step) then 1 else 0)
    ensures Apply(s, step).conn.log == s.conn.log && LifeInv(Apply(s, step))
  {
    StepKeepsLife(s, step);
    Facts(s);
    WatchingOf(s.conn);
    if step.Shutdown? { ShutdownIsCalledOpen(s, step); }
    hide LifeInv, Life, Alive, Shut, Settled, Careful;
    match step
    case Handle(read, asked) => HandleStaysSettled(s, again, read, asked);
    case RunOne(asked) => TaskStaysSettled(s, again, asked);
    case _ => CallStaysSettled(s, again, step);
  }

  lemma ShutdownIsCalledOpen(s: Sys, step: Step)
    requires Enabled(s, step) && Careful(s, step) && step.Shutdown?
    ensures !s.conn.state.Disconnected?
  {
  }

  lemma HandleStaysSettled(s: Sys, again: nat, read: ReadResult, asked: WriteResult)
    requires Settled(s, again) && Enabled(s, Handle(read, asked)) && Watching(s.conn)
    requires s.conn.state.Disconnected? ==> !Writing(s.conn)
    ensures Settled(Apply(s, Handle(read, asked)), again) && Apply(s, Handle(read, asked)).conn.log == s.conn.log
  {
    hide HandleWrite, Watching, NoneLeft;
    if s.conn.state.Disconnecting? { WriteStaysSettled(s.conn, asked); } else { WriteKeepsState(s.conn, asked); }
  }

  lemma CallStaysSettled(s: Sys, again: nat, step: Step)
    requires Settled(s, again) && Enabled(s, step) && !step.Handle? && !step.RunOne?
    requires Open(s.conn) ==> (Writing(s.conn) <==> s.conn.output != [])
    requires step.Shutdown? ==> step.inLoop && Open(s.conn)
    ensures Settled(Apply(s, step), again + if Repeats(s, step) then 1 else 0)
    ensures Apply(s, step).conn.log == s.conn.log
  {
    MoreLeft(s.pending);
    hide NoneLeft;
  }

  lemma TaskStaysSettled(s: Sys, again: nat, asked: WriteResult)
    requires Settled(s, again) && s.batch != [] && s.phase.Running?
    ensures Settled(Apply(s, RunOne(asked)), again) && Apply(s, RunOne(asked)).conn.log == s.conn.log
  {
    assert s.batch[0] in s.batch;
  }

  lemma WatchingOf(c: Conn)
    requires Life(c)
    ensures Watching(c) && (Open(c) ==> (Writing(c) <==> c.output != [])) && (c.state.Disconnected? ==> !Writing(c))
  {
    MaskOf(c);
  }

  lemma {:induction false} RunStaysSettled(s: Sys, again: nat, steps: seq<Step>)
    requires Settled(s, again) && LifeInv(s) && CarefulRun(s, steps)
    requires forall step <- steps :: step.Shutdown? ==> step.inLoop
    ensures Possible(s, steps) && Settled(Exec(s, steps), again + CountRepeats(s, steps))
    ensures Exec(s, steps).conn.log == s.conn.log
    decreases |steps|
  {
    CarefulIsPossible(s, steps);
    if steps != [] {
      assert steps[0] in steps;
      StaysSettled(s, again, steps[0]);
      RunStaysSettled(Apply(s, steps[0]), again + if Repeats(s, steps[0]) then 1 else 0, steps[1..]);
    }
  }

  // As long as shutdown is called only while connected, it is not called again.
  lemma {:induction false} ProperStaysSettled(s: Sys, steps: seq<Step>)
    requires Settled(s, 0) && LifeInv(s) && ProperRun(s, steps)
    ensures Possible(s, steps) && Settled(Exec(s, steps), 0)
    decreases |steps|
  {
    ProperIsCareful(s, steps);
    if steps != [] {
      StaysSettled(s, 0, steps[0]);
      ProperStaysSettled(Apply(s, steps[0]), steps[1..]);
    }
  }

  /** When every call comes from the loop thread no message is ever queued before shutdown. */
  lemma {:induction false} LoopThreadQueuesNothing(s: Sys, steps: seq<Step>)
    requires Before(s) && ProperRun(s, steps) && forall step <- steps :: ByOneThread(step, true)
    requires Queued(s.batch) == [] && Queued(s.pending) == []
    ensures Possible(s, steps) && Before(Exec(s, steps))
    ensures Exec(s, steps).conn.state.Connected? ==> NoneLeft(Exec(s, steps).batch) && NoneLeft(Exec(s, steps).pending)
    decreases |steps|
  {
    ProperIsCareful(s, steps);
    if steps == [] {
      if s.conn.state.Connected? {
        NoSendsQueued(s.batch);
        NoSendsQueued(s.pending);
      }
    } else {
      assert steps[0] in steps;
      StepKeepsBefore(s, steps[0]);
      StepQueuesNoSend(s, steps[0]);
      LoopThreadQueuesNothing(Apply(s, steps[0]), steps[1..]);
    }
  }

  lemma {:induction false} NoSendsQueued(tasks: seq<Task>)
    requires OnlyMild(tasks) && Queued(tasks) == []
    ensures NoneLeft(tasks)
    decreases |tasks|
  {
    if tasks != [] {
      assert tasks[0] in tasks && forall t <- tasks[1..] :: t in tasks;
      NoSendsQueued(tasks[1..]);
      assert forall t <- tasks :: t == tasks[0] || t in tasks[1..];
    }
  }

  lemma StepQueuesNoSend(s: Sys, step: Step)
    requires Enabled(s, step) && ByOneThread(step, true) && Queued(s.batch) == [] && Queued(s.pending) == []
    ensures Queued(Apply(s, step).batch) == [] && Queued(Apply(s, step).pending) == []
  {
    hide RunTask, RunHandler, SendInLoop, ShutdownInLoop;
    QueuedConcat(s.pending, [ForceCloseTask]);
    QueuedConcat(s.pending, [Destroy]);
  }

  /** Half-close from the loop thread: every message sent before shutdown that was not dropped by the peer is on the
      wire when the FIN is sent, the FIN is sent as soon as the buffer is empty, and no message is lost to it. It is
      sent once exactly if shutdown is not called again on the drained connection: each such call sends one more. */
  lemma LoopThreadHalfClose(before: seq<Step>, after: seq<Step>)
    requires ProperRun(Start, before) && forall step <- before :: ByOneThread(step, true)
    requires Possible(Start, before) && Exec(Start, before).conn.state.Connected?
    requires Enabled(Exec(Start, before), Shutdown(true))
    requires CarefulRun(Apply(Exec(Start, before), Shutdown(true)), after)
    requires forall step <- after :: ByOneThread(step, true)
    ensures Possible(Apply(Exec(Start, before), Shutdown(true)), after)
    ensures var called, t := Exec(Start, before), Apply(Exec(Start, before), Shutdown(true));
      var c, again := Exec(t, after).conn, CountRepeats(t, after);
      && c.lost == 0 && c.log == called.conn.log
      && (c.fins <= 1 <==> again == 0) && (again > 0 ==> c.fins == again + 1)
      && (Open(c) ==> (c.fins > 0 <==> c.output == []))
      && (Open(c) && c.fins > 0 ==> c.wire == KeptBytes(called.conn.log))
  {
    BeforeStart();
    assert Queued(Start.batch) == [] && Queued(Start.pending) == [];
    LoopThreadQueuesNothing(Start, before);
    ByteStreamPreserved(Start, before);
    hide Life, LifeInv, Careful, CountRepeats, KeptBytes, Proper, NoneLeft;
    var s := Exec(Start, before);
    ShutdownSettles(s);
    var t := Apply(s, Shutdown(true));
    assert forall step <- after :: ByOneThread(step, true);
    RunStaysSettled(t, 0, after);
    ByteStreamPreserved(t, after);
  }

  lemma ShutdownSettles(s: Sys)
    requires Before(s) && s.conn.state.Connected? && NoneLeft(s.batch) && NoneLeft(s.pending)
        && Enabled(s, Shutdown(true))
    ensures Settled(Apply(s, Shutdown(true)), 0) && LifeInv(Apply(s, Shutdown(true)))
    ensures Apply(s, Shutdown(true)).conn.log == s.conn.log
  {
    Facts(s);
    WatchingOf(s.conn);
    assert Careful(s, Shutdown(true)) by { hide LifeInv, Life, Doomed; }
    StepKeepsLife(s, Shutdown(true));
    hide LifeInv, Life;
  }
}
