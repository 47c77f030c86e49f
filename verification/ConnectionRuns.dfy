/** A connection together with its loop: dispatched events, the FIFO functor queue, and user calls from the
    loop thread and from another thread, in every interleaving. */
module ConnectionRuns {
  import opened Connection
  import I = Interest

  datatype Task =
    | Establish | SendTask(data: seq<Byte>) | ShutdownTask | ForceCloseTask | StartReadTask | StopReadTask | Destroy

  datatype Handler = OnClose | OnError | OnRead | OnWrite

  /** `todo`: the handlers of the current channel still to be called. */
  datatype Phase = Polling | Dispatching(todo: seq<Handler>) | Running

  datatype Sys = Sys(
    conn: Conn,
    phase: Phase,
    batch: seq<Task>,            // functors taken by the running doPendingFunctors
    pending: seq<Task>,
    calls: seq<seq<Byte>>,       // messages send() took, in call order
    destroyQueued: bool)

  const Start := Sys(Created, Polling, [], [Establish], [], false)

  datatype Step =
    | Send(data: seq<Byte>, inLoop: bool, asked: WriteResult)
    | Shutdown(inLoop: bool)
    | ForceClose
    | StartRead(inLoop: bool)
    | StopRead(inLoop: bool)
    | Poll(revents: set<I.Event>)
    | Handle(read: ReadResult, asked: WriteResult)
    | EndDispatch
    | RunOne(asked: WriteResult)
    | EndRun
    | QueueDestroy               // the close callback's way back through the server

  /** handleEventWithGuard: which callbacks run, and in which order. */
  function Handlers(revents: set<I.Event>): seq<Handler> {
    (if I.Hup in revents && I.In !in revents then [OnClose] else []) +
    (if revents * {I.Err, I.Nval} != {} then [OnError] else []) +
    (if revents * {I.In, I.Pri, I.RdHup} != {} then [OnRead] else []) +
    (if I.Out in revents then [OnWrite] else [])
  }

  /** Reported events are registered ones, or ERR and HUP; a hang-up without IN carries no PRI. */
  predicate Reportable(m: I.Mark, revents: set<I.Event>) {
    && m.index.Added?
    && revents <= m.events + {I.Err, I.Hup}
    && (I.Hup in revents && I.In !in revents ==> I.Pri !in revents)
  }

  // The user gets hold of the connection in the callback that reports it up.
  predicate Enabled(s: Sys, step: Step) {
    match step
    case Send(_, inLoop, _) => s.conn.ups > 0 && (inLoop ==> !s.phase.Polling?)
    case Shutdown(inLoop) => s.conn.ups > 0 && (inLoop ==> !s.phase.Polling?)
    case ForceClose => s.conn.ups > 0
    case StartRead(inLoop) => s.conn.ups > 0 && (inLoop ==> !s.phase.Polling?)
    case StopRead(inLoop) => s.conn.ups > 0 && (inLoop ==> !s.phase.Polling?)
    case Poll(revents) => s.phase.Polling? && (revents != {} ==> Reportable(s.conn.channel, revents))
    case Handle(_, _) => s.phase.Dispatching? && s.phase.todo != []
    case EndDispatch => s.phase.Dispatching? && s.phase.todo == []
    case RunOne(_) => s.phase.Running? && s.batch != []
    case EndRun => s.phase.Running? && s.batch == []
    case QueueDestroy => s.conn.closes > 0 && !s.destroyQueued
  }

  function RunTask(c: Conn, task: Task, asked: WriteResult): Conn {
    match task
    case Establish => ConnectEstablished(c)
    case SendTask(data) => SendInLoop(c, data, asked)
    case ShutdownTask => ShutdownInLoop(c)
    case ForceCloseTask => ForceCloseInLoop(c)
    case StartReadTask => StartReadInLoop(c)
    case StopReadTask => StopReadInLoop(c)
    case Destroy => ConnectDestroyed(c)
  }

  function RunHandler(c: Conn, h: Handler, read: ReadResult, asked: WriteResult): Conn {
    match h
    case OnClose => HandleClose(c)
    case OnError => c
    case OnRead => HandleRead(c, read)
    case OnWrite => HandleWrite(c, asked)
  }

  function Apply(s: Sys, step: Step): Sys
    requires Enabled(s, step)
  {
    match step
    case Send(data, inLoop, asked) =>
      if !s.conn.state.Connected? then s
      else if inLoop then s.(conn := SendInLoop(s.conn, data, asked), calls := s.calls + [data])
      else s.(pending := s.pending + [SendTask(data)], calls := s.calls + [data])
    case Shutdown(inLoop) =>
      if inLoop then s.(conn := ShutdownInLoop(ShutdownState(s.conn)))
      else s.(conn := ShutdownState(s.conn), pending := s.pending + [ShutdownTask])
    case ForceClose =>
      if Open(s.conn) then s.(conn := ForceCloseState(s.conn), pending := s.pending + [ForceCloseTask]) else s
    case StartRead(inLoop) =>
      if inLoop then s.(conn := StartReadInLoop(s.conn)) else s.(pending := s.pending + [StartReadTask])
    case StopRead(inLoop) =>
      if inLoop then s.(conn := StopReadInLoop(s.conn)) else s.(pending := s.pending + [StopReadTask])
    case Poll(revents) => s.(phase := Dispatching(Handlers(revents)))
    case Handle(read, asked) =>
      s.(conn := RunHandler(s.conn, s.phase.todo[0], read, asked), phase := Dispatching(s.phase.todo[1..]))
    case EndDispatch => s.(phase := Running, batch := s.pending, pending := [])
    case RunOne(asked) => s.(conn := RunTask(s.conn, s.batch[0], asked), batch := s.batch[1..])
    case EndRun => s.(phase := Polling)
    case QueueDestroy => s.(pending := s.pending + [Destroy], destroyQueued := true)
  }

  ghost predicate Possible(s: Sys, steps: seq<Step>)
    decreases |steps|
  {
    steps != [] ==> Enabled(s, steps[0]) && Possible(Apply(s, steps[0]), steps[1..])
  }

  ghost function Exec(s: Sys, steps: seq<Step>): Sys
    requires Possible(s, steps)
    decreases |steps|
  {
    if steps == [] then s else Exec(Apply(s, steps[0]), steps[1..])
  }

  // ---- the byte stream, in every run ----

  lemma TaskPreserves(c: Conn, task: Task, asked: WriteResult)
    requires Preserved(c)
    ensures Preserved(RunTask(c, task, asked)) && c.wire <= RunTask(c, task, asked).wire
  {
    hide SendInLoop;
    if task.SendTask? {
      SendKeeps(c, task.data, asked);
      SendTakesAllOrNothing(c, task.data, asked);
    }
  }

  lemma HandlerPreserves(c: Conn, h: Handler, read: ReadResult, asked: WriteResult)
    requires Preserved(c)
    ensures Preserved(RunHandler(c, h, read, asked)) && c.wire <= RunHandler(c, h, read, asked).wire
  {
    hide HandleWrite;
    if h.OnWrite? { WriteKeeps(c, asked); }
  }

  lemma StepPreserves(s: Sys, step: Step)
    requires Preserved(s.conn) && Enabled(s, step)
    ensures Preserved(Apply(s, step).conn) && s.conn.wire <= Apply(s, step).conn.wire
  {
    hide SendInLoop, RunTask, RunHandler, KeptBytes;
    match step
    case Send(data, _, asked) => TaskPreserves(s.conn, SendTask(data), asked); SendIsATask(s.conn, data, asked);
    case Handle(read, asked) => HandlerPreserves(s.conn, s.phase.todo[0], read, asked);
    case RunOne(asked) => TaskPreserves(s.conn, s.batch[0], asked);
    case _ =>
  }

  lemma SendIsATask(c: Conn, data: seq<Byte>, asked: WriteResult)
    ensures RunTask(c, SendTask(data), asked) == SendInLoop(c, data, asked)
  {
  }

  /** Byte-stream preservation: whatever the partial writes, errors and interleavings, the bytes on the wire
      followed by the output buffer are the kept messages, in order; and what is on the wire stays. */
  lemma {:induction false} ByteStreamPreserved(s: Sys, steps: seq<Step>)
    requires Preserved(s.conn) && Possible(s, steps)
    ensures var r := Exec(s, steps).conn; r.wire + r.output == KeptBytes(r.log)
    ensures s.conn.wire <= Exec(s, steps).conn.wire
    decreases |steps|
  {
    if steps != [] {
      StepPreserves(s, steps[0]);
      ByteStreamPreserved(Apply(s, steps[0]), steps[1..]);
    }
  }

  function Reached(log: seq<Message>): seq<seq<Byte>> {
    seq(|log|, i requires 0 <= i < |log| => log[i].data)
  }

  function Queued(tasks: seq<Task>): seq<seq<Byte>> {
    if tasks == [] then []
    else if tasks[0].SendTask? then [tasks[0].data] + Queued(tasks[1..])
    else Queued(tasks[1..])
  }

  lemma {:induction false} QueuedConcat(a: seq<Task>, b: seq<Task>)
    ensures Queued(a + b) == Queued(a) + Queued(b)
  {
    if a == [] {
      assert a + b == b;
    } else {
      assert (a + b)[1..] == a[1..] + b;
      QueuedConcat(a[1..], b);
    }
  }

  /** `inLoop`: the one thread that makes the user's calls is the loop thread. */
  predicate ByOneThread(step: Step, inLoop: bool) {
    match step
    case Send(_, l, _) => l == inLoop
    case Shutdown(l) => l == inLoop
    case StartRead(l) => l == inLoop
    case StopRead(l) => l == inLoop
    case _ => true
  }

  ghost predicate InCallOrder(s: Sys) {
    s.calls == Reached(s.conn.log) + Queued(s.batch) + Queued(s.pending)
  }

  lemma StepKeepsCallOrder(s: Sys, step: Step, inLoop: bool)
    requires InCallOrder(s) && Enabled(s, step) && ByOneThread(step, inLoop)
    requires s.phase.Running? || s.batch == []
    requires inLoop ==> Queued(s.batch) == [] && Queued(s.pending) == []
    ensures InCallOrder(Apply(s, step))
    ensures inLoop ==> Queued(Apply(s, step).batch) == [] && Queued(Apply(s, step).pending) == []
    ensures Apply(s, step).phase.Running? || Apply(s, step).batch == []
  {
    hide RunTask, RunHandler, SendInLoop, Reached, InCallOrder, Queued;
    match step
    case Send(data, _, asked) => SendKeepsCallOrder(s, step);
    case Shutdown(l) => QueuedIsFifo(s, ShutdownTask);
    case ForceClose => QueuedIsFifo(s, ForceCloseTask);
    case StartRead(_) => QueuedIsFifo(s, StartReadTask);
    case StopRead(_) => QueuedIsFifo(s, StopReadTask);
    case QueueDestroy => QueuedIsFifo(s, Destroy);
    case RunOne(asked) => RunOneKeepsCallOrder(s, asked);
    case _ => QuietStepKeepsCallOrder(s, step);
  }

  lemma SendKeepsCallOrder(s: Sys, step: Step)
    requires InCallOrder(s) && Enabled(s, step) && step.Send?
    requires step.inLoop ==> Queued(s.batch) == [] && Queued(s.pending) == []
    ensures InCallOrder(Apply(s, step))
    ensures step.inLoop ==> Apply(s, step).pending == s.pending
  {
    hide SendInLoop, Reached;
    ReachedAfterSend(s.conn, step.data, step.asked);
    QueuedConcat(s.pending, [SendTask(step.data)]);
  }

  lemma QueuedIsFifo(s: Sys, task: Task)
    requires !task.SendTask?
    ensures Queued(s.pending + [task]) == Queued(s.pending)
    ensures InCallOrder(s) ==> forall c: Conn | c.log == s.conn.log ::
              InCallOrder(s.(conn := c)) && InCallOrder(s.(conn := c, pending := s.pending + [task]))
              && forall b :: InCallOrder(s.(conn := c, pending := s.pending + [task], destroyQueued := b))
  {
    QueuedConcat(s.pending, [task]);
    assert Queued([task]) == [];
  }

  lemma RunOneKeepsCallOrder(s: Sys, asked: WriteResult)
    requires InCallOrder(s) && s.batch != [] && s.phase.Running?
    ensures InCallOrder(Apply(s, RunOne(asked)))
    ensures Queued(s.batch) == [] ==> Queued(s.batch[1..]) == []
  {
    hide RunTask, Reached, Queued;
    ReachedAfterTask(s.conn, s.batch[0], asked);
    assert s.batch == [s.batch[0]] + s.batch[1..];
    QueuedConcat([s.batch[0]], s.batch[1..]);
    var done, first, rest := Reached(s.conn.log), Queued([s.batch[0]]), Queued(s.batch[1..]);
    assert done + (first + rest) == (done + first) + rest;
  }

  lemma QuietStepKeepsCallOrder(s: Sys, step: Step)
    requires InCallOrder(s) && Enabled(s, step) && (s.phase.Running? || s.batch == [])
    requires step.Poll? || step.Handle? || step.EndDispatch? || step.EndRun?
    ensures InCallOrder(Apply(s, step))
    ensures Queued(s.pending) == [] && step.EndDispatch?
        ==> Queued(Apply(s, step).batch) == [] && Queued(Apply(s, step).pending) == []
  {
    if step.Handle? { ReachedAfterHandler(s.conn, s.phase.todo[0], step.read, step.asked); }
  }

  lemma ReachedAfterSend(c: Conn, data: seq<Byte>, asked: WriteResult)
    ensures Reached(SendInLoop(c, data, asked).log) == Reached(c.log) + [data]
  {
    SendTakesAllOrNothing(c, data, asked);
  }

  lemma ReachedAfterTask(c: Conn, task: Task, asked: WriteResult)
    ensures Reached(RunTask(c, task, asked).log) == Reached(c.log) + Queued([task])
  {
    if task.SendTask? { ReachedAfterSend(c, task.data, asked); }
    assert Queued([task]) == if task.SendTask? then [task.data] else [];
  }

  lemma ReachedAfterHandler(c: Conn, h: Handler, read: ReadResult, asked: WriteResult)
    ensures RunHandler(c, h, read, asked).log == c.log
  {
  }

  /** With one calling thread, in the loop or not, messages reach the connection in the order they were sent. */
  lemma {:induction false} CallOrderKept(s: Sys, steps: seq<Step>, inLoop: bool)
    requires InCallOrder(s) && (s.phase.Running? || s.batch == [])
    requires inLoop ==> Queued(s.batch) == [] && Queued(s.pending) == []
    requires Possible(s, steps) && forall step <- steps :: ByOneThread(step, inLoop)
    ensures var r := Exec(s, steps); r.calls == Reached(r.conn.log) + Queued(r.batch) + Queued(r.pending)
    decreases |steps|
  {
    if steps != [] {
      assert steps[0] in steps;
      StepKeepsCallOrder(s, steps[0], inLoop);
      CallOrderKept(Apply(s, steps[0]), steps[1..], inLoop);
    }
  }
}
