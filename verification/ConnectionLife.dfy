/** The life of a connection over whole runs: up once, down once, closed once, destroyed while silent. */
module ConnectionLife {
  import opened Connection
  import opened ConnectionRuns
  import opened Queues
  import I = Interest

  function Todo(p: Phase): seq<Handler> {
    if p.Dispatching? then p.todo else []
  }

  // Handlers that may close the connection.
  predicate Closer(h: Handler) {
    h.OnClose? || h.OnRead?
  }

  ghost predicate NoCloser(todo: seq<Handler>) {
    forall h <- todo :: !Closer(h)
  }

  ghost predicate OneCloser(todo: seq<Handler>) {
    forall i, j | 0 <= i < j < |todo| :: !Closer(todo[i]) || !Closer(todo[j])
  }

  // Functors waiting to run.
  function Waiting(s: Sys, t: Task): nat {
    Times(s.batch, t) + Times(s.pending, t)
  }

  // ---- one connection ----

  /** A connection that has not been reported up. */
  ghost predicate Unborn(c: Conn) {
    c == Created
  }

  /** The mask and index of an open connection. */
  function OpenMark(reading: bool, writing: bool): I.Mark {
    var events := (if reading then I.READ_EVENT else {}) + (if writing then I.WRITE_EVENT else {});
    I.Mark(if events == I.NONE_EVENT then I.Deleted else I.Added, events)
  }

  ghost predicate Alive(c: Conn) {
    && Open(c) && c.ups == 1 && c.downs == 0 && c.closes == 0 && c.destroyed == 0
    && c.channel == OpenMark(c.reading, c.output != [])
  }

  predicate Listed(c: Conn) {
    c.channel.index.Added?
  }

  /** Closed once; reading may have been switched on or off since. */
  ghost predicate Shut(c: Conn) {
    && c.state.Disconnected? && c.ups == 1 && c.downs == 1 && c.closes == 1
    && c.channel.events <= I.READ_EVENT && I.Coherent(c.channel) && (c.destroyed == 0 ==> !c.channel.index.New?)
  }

  /** An assertion failed, or the connection was closed or destroyed twice, or its channel came back to life. */
  predicate Sick(c: Conn) {
    c.failed || c.closes >= 2 || c.destroyed >= 2 || (c.destroyed == 1 && c.channel != I.Fresh)
  }

  ghost predicate Life(c: Conn) {
    !c.failed && Watching(c) && (Unborn(c) || Alive(c) || (Shut(c) && !Sick(c)))
  }

  // ---- a closed connection and the functors still queued for it ----

  function RunAll(c: Conn, tasks: seq<Task>): Conn
    decreases |tasks|
  {
    if tasks == [] then c else RunAll(RunTask(c, tasks[0], WouldBlock), tasks[1..])
  }

  /** What is queued puts the closed connection back into epoll for the next poll or the one after, or breaks it. */
  ghost predicate Doomed(s: Sys) {
    var first := RunAll(s.conn, s.batch);
    var last := RunAll(first, s.pending);
    Sick(last) || Listed(last) || (!s.phase.Dispatching? && Listed(first))
  }

  lemma ShutTask(c: Conn, task: Task, asked: WriteResult)
    requires Shut(c) && !task.Establish?
    ensures RunTask(c, task, asked) == RunTask(c, task, WouldBlock)
    ensures Shut(RunTask(c, task, asked)) && (Sick(c) ==> Sick(RunTask(c, task, asked)))
    ensures RunTask(c, task, asked).destroyed == c.destroyed + if task.Destroy? then 1 else 0
  {
  }

  lemma {:induction false} ShutTasks(c: Conn, tasks: seq<Task>)
    requires Shut(c) && Times(tasks, Establish) == 0
    ensures Shut(RunAll(c, tasks)) && (Sick(c) ==> Sick(RunAll(c, tasks)))
    ensures RunAll(c, tasks).destroyed == c.destroyed + Times(tasks, Destroy)
    decreases |tasks|
  {
    if tasks == [] {
      TimesAppend([], Destroy, Destroy);
    } else {
      TimesHead(tasks, Establish);
      TimesHead(tasks, Destroy);
      ShutTask(c, tasks[0], WouldBlock);
      ShutTasks(RunTask(c, tasks[0], WouldBlock), tasks[1..]);
    }
  }

  lemma {:induction false} RunAllAppend(c: Conn, tasks: seq<Task>, task: Task)
    ensures RunAll(c, tasks + [task]) == RunTask(RunAll(c, tasks), task, WouldBlock)
    decreases |tasks|
  {
    if tasks == [] {
      assert [] + [task] == [task];
      assert RunAll(c, [task]) == RunAll(RunTask(c, task, WouldBlock), []);
    } else {
      assert (tasks + [task])[0] == tasks[0] && (tasks + [task])[1..] == tasks[1..] + [task];
      RunAllAppend(RunTask(c, tasks[0], WouldBlock), tasks[1..], task);
    }
  }

  // ---- what callers must not do ----

  /** Steps that may leave a closed connection to be found again: its first close, and startRead and stopRead. */
  predicate Risky(s: Sys, step: Step)
    requires Enabled(s, step)
  {
    step.StartRead? || step.StopRead? || (s.conn.closes == 0 && Apply(s, step).conn.closes > 0)
  }

  /** shutdown is not called on a closed connection, and neither a close nor a call of startRead or stopRead leaves a
      closed connection doomed. */
  ghost predicate Careful(s: Sys, step: Step)
    requires Enabled(s, step)
  {
    && (step.Shutdown? ==> !s.conn.state.Disconnected?)
    && (Risky(s, step) && Apply(s, step).conn.state.Disconnected? ==> !Doomed(Apply(s, step)))
  }

  ghost predicate CarefulRun(s: Sys, steps: seq<Step>)
    decreases |steps|
  {
    steps != [] ==> Enabled(s, steps[0]) && Careful(s, steps[0]) && CarefulRun(Apply(s, steps[0]), steps[1..])
  }

  lemma {:induction false} CarefulIsPossible(s: Sys, steps: seq<Step>)
    requires CarefulRun(s, steps)
    ensures Possible(s, steps)
    decreases |steps|
  {
    if steps != [] { CarefulIsPossible(Apply(s, steps[0]), steps[1..]); }
  }

  // ---- the invariant ----

  ghost predicate LifeInv(s: Sys) {
    && Life(s.conn)
    && (s.phase.Running? || s.batch == [])
    && OneCloser(Todo(s.phase)) && (!Open(s.conn) ==> NoCloser(Todo(s.phase)))
    && Waiting(s, Establish) == (if Unborn(s.conn) then 1 else 0)
    && (Unborn(s.conn) ==> (forall t <- s.batch :: t.Establish?) && (forall t <- s.pending :: t.Establish?))
    && Waiting(s, Destroy) + s.conn.destroyed == (if s.destroyQueued then 1 else 0)
    && (s.destroyQueued ==> s.conn.state.Disconnected?)
    && (s.conn.state.Disconnected? ==> !Doomed(s))
  }

  lemma OneCloserPerDispatch(m: I.Mark, revents: set<I.Event>)
    requires m.events <= I.READ_EVENT + I.WRITE_EVENT
    requires revents != {} ==> Reportable(m, revents)
    ensures OneCloser(Handlers(revents)) && (!m.index.Added? ==> Handlers(revents) == [])
  {
  }

  // ---- an open connection ----

  lemma OpenMarks(reading: bool, writing: bool)
    ensures I.Apply(OpenMark(reading, false), I.EnableWriting) == OpenMark(reading, true)
    ensures I.Apply(OpenMark(reading, true), I.DisableWriting) == OpenMark(reading, false)
    ensures I.Apply(OpenMark(false, writing), I.EnableReading) == OpenMark(true, writing)
    ensures I.Apply(OpenMark(true, writing), I.DisableReading) == OpenMark(false, writing)
    ensures I.Apply(I.Fresh, I.EnableReading) == OpenMark(true, false)
    ensures I.Out in OpenMark(reading, writing).events <==> writing
    ensures I.In in OpenMark(reading, writing).events <==> reading
    ensures OpenMark(reading, writing).events * I.READ_EVENT != {} <==> reading
    ensures OpenMark(reading, writing).events <= I.READ_EVENT + I.WRITE_EVENT
    ensures I.Apply(OpenMark(reading, writing), I.DisableAll)
      == I.Mark(if reading || writing then I.Deleted else I.Added, I.NONE_EVENT)
  {
    assert I.In in I.READ_EVENT && I.Out in I.WRITE_EVENT;
    assert reading ==> I.In in OpenMark(reading, writing).events * I.READ_EVENT;
    assert writing ==> I.Out in OpenMark(reading, writing).events;
  }

  lemma SendKeepsAlive(c: Conn, data: seq<Byte>, asked: WriteResult)
    requires Life(c) && Alive(c)
    ensures Life(SendInLoop(c, data, asked)) && Alive(SendInLoop(c, data, asked))
    ensures SendInLoop(c, data, asked).state == c.state
  {
    OpenMarks(c.reading, c.output != []);
    SendKeeps(c, data, asked);
    hide OpenMark;
  }

  lemma WriteKeepsAlive(c: Conn, asked: WriteResult)
    requires Life(c) && Alive(c)
    ensures Life(HandleWrite(c, asked)) && Alive(HandleWrite(c, asked)) && HandleWrite(c, asked).state == c.state
  {
    OpenMarks(c.reading, c.output != []);
    WriteKeeps(c, asked);
    hide OpenMark;
  }

  lemma ReadKeepsAlive(c: Conn)
    requires Life(c) && Alive(c)
    ensures Life(StartReadInLoop(c)) && Alive(StartReadInLoop(c)) && StartReadInLoop(c).state == c.state
    ensures Life(StopReadInLoop(c)) && Alive(StopReadInLoop(c)) && StopReadInLoop(c).state == c.state
  {
    OpenMarks(c.reading, c.output != []);
    OpenMarks(!c.reading, c.output != []);
    hide OpenMark;
  }

  /** A close finds its connection open, and leaves it listed exactly when nobody was reading or writing. */
  lemma CloseShuts(c: Conn)
    requires Life(c) && Alive(c)
    ensures var d := HandleClose(c);
      Life(d) && Shut(d) && !Sick(d) && d.destroyed == 0 && (Listed(d) <==> !c.reading && c.output == [])
  {
    OpenMarks(c.reading, c.output != []);
    hide OpenMark;
  }

  lemma EstablishOpens(c: Conn)
    requires Unborn(c)
    ensures Life(ConnectEstablished(c)) && Alive(ConnectEstablished(c))
  {
    OpenMarks(true, false);
  }

  lemma ShutdownKeepsAlive(c: Conn)
    requires Life(c) && Alive(c)
    ensures Life(ShutdownInLoop(c)) && Alive(ShutdownInLoop(c)) && ShutdownInLoop(c).state == c.state
    ensures Life(ShutdownState(c)) && Alive(ShutdownState(c))
    ensures Life(ForceCloseState(c)) && Alive(ForceCloseState(c))
  {
  }

  lemma TaskKeepsAlive(c: Conn, task: Task, asked: WriteResult)
    requires Life(c) && Alive(c) && !task.Establish? && !task.Destroy?
    ensures var d := RunTask(c, task, asked);
      && Life(d) && d.destroyed == 0
      && (if task.ForceCloseTask? then Shut(d) && !Sick(d) else Alive(d) && d.state == c.state)
  {
    hide SendInLoop, StartReadInLoop, StopReadInLoop, HandleClose, Life;
    match task
    case SendTask(data) => SendKeepsAlive(c, data, asked);
    case ShutdownTask => ShutdownKeepsAlive(c);
    case ForceCloseTask => CloseShuts(c);
    case StartReadTask => ReadKeepsAlive(c);
    case StopReadTask => ReadKeepsAlive(c);
  }

  lemma HandlerKeepsAlive(c: Conn, h: Handler, read: ReadResult, asked: WriteResult)
    requires Life(c) && Alive(c)
    ensures var d := RunHandler(c, h, read, asked);
      && Life(d) && d.destroyed == 0
      && (if h.OnClose? || (h.OnRead? && read.EndOfStream?) then Shut(d) && !Sick(d)
          else Alive(d) && d.state == c.state)
  {
    hide HandleWrite, HandleClose, Life;
    CloseShuts(c);
    WriteKeepsAlive(c, asked);
  }

  // ---- steps on a closed connection ----

  // Not doomed now means not sick now.
  lemma NotDoomed(s: Sys)
    requires Shut(s.conn) && Waiting(s, Establish) == 0 && !Doomed(s)
    ensures !Sick(s.conn) && !Sick(RunAll(s.conn, s.batch)) && !Sick(RunAll(RunAll(s.conn, s.batch), s.pending))
    ensures Shut(RunAll(s.conn, s.batch)) && Shut(RunAll(RunAll(s.conn, s.batch), s.pending))
    ensures RunAll(RunAll(s.conn, s.batch), s.pending).destroyed == s.conn.destroyed + Waiting(s, Destroy)
  {
    ShutTasks(s.conn, s.batch);
    ShutTasks(RunAll(s.conn, s.batch), s.pending);
    hide Shut, RunAll, Sick;
  }

  lemma DoomAfterLoopStep(s: Sys, step: Step)
    requires Shut(s.conn) && Waiting(s, Establish) == 0 && !Doomed(s) && (s.phase.Running? || s.batch == [])
    requires Enabled(s, step) && (step.Poll? || step.EndDispatch? || step.EndRun?)
    ensures !Doomed(Apply(s, step))
  {
    hide Shut, Sick, RunTask;
  }

  lemma DoomAfterTask(s: Sys, asked: WriteResult)
    requires Shut(s.conn) && Waiting(s, Establish) == 0 && !Doomed(s) && Enabled(s, RunOne(asked))
    ensures !Doomed(Apply(s, RunOne(asked)))
  {
    TimesHead(s.batch, Establish);
    ShutTask(s.conn, s.batch[0], asked);
    hide Shut, Sick, RunTask;
  }

  lemma DoomAfterDestroy(s: Sys)
    requires Shut(s.conn) && Waiting(s, Establish) == 0 && !Doomed(s)
    requires Waiting(s, Destroy) == 0 && s.conn.destroyed == 0 && Enabled(s, QueueDestroy)
    ensures !Doomed(Apply(s, QueueDestroy))
  {
    NotDoomed(s);
    var first := RunAll(s.conn, s.batch);
    RunAllAppend(first, s.pending, Destroy);
    DestroyIsClean(RunAll(first, s.pending));
    hide Shut, Sick, RunAll, RunTask;
  }

  /** connectDestroyed finds a silent channel that the poller knows. */
  lemma DestroyIsClean(c: Conn)
    requires Shut(c) && !Sick(c) && c.destroyed == 0 && !Listed(c)
    ensures !Sick(RunTask(c, Destroy, WouldBlock)) && !Listed(RunTask(c, Destroy, WouldBlock))
  {
  }

  // ---- steps ----

  lemma Facts(s: Sys)
    requires LifeInv(s)
    ensures Life(s.conn) && (s.phase.Running? || s.batch == [])
    ensures s.conn.ups > 0 ==> !Unborn(s.conn) && Waiting(s, Establish) == 0
    ensures Shut(s.conn) <==> s.conn.state.Disconnected?
    ensures Alive(s.conn) <==> Open(s.conn)
    ensures Unborn(s.conn) <==> s.conn.state.Connecting?
    ensures s.conn.closes > 0 <==> s.conn.state.Disconnected?
  {
    hide Doomed, Watching, OneCloser, NoCloser, Waiting;
  }

  // Nothing but the queue of an open connection has changed, or the connection itself but for its state's class.
  lemma StillAlive(s: Sys, t: Sys, task: Task)
    requires LifeInv(s) && Alive(s.conn) && Life(t.conn) && Alive(t.conn) && !task.Establish? && !task.Destroy?
    requires t == s.(conn := t.conn, pending := t.pending, calls := t.calls)
    requires t.pending == s.pending || t.pending == s.pending + [task]
    ensures LifeInv(t)
  {
    hide Doomed, Watching, OneCloser, NoCloser, OpenMark;
    TimesAppend(s.pending, task, Establish);
    TimesAppend(s.pending, task, Destroy);
  }

  lemma UserStepOpen(s: Sys, step: Step)
    requires LifeInv(s) && Enabled(s, step) && Open(s.conn)
    requires step.Send? || step.Shutdown? || step.ForceClose? || step.StartRead? || step.StopRead?
    ensures LifeInv(Apply(s, step)) && Rank(s.conn.state) <= Rank(Apply(s, step).conn.state)
    ensures Open(Apply(s, step).conn)
  {
    Facts(s);
    var t := Apply(s, step);
    hide LifeInv, Life, SendInLoop, StartReadInLoop, StopReadInLoop, ShutdownInLoop;
    match step
    case Send(data, _, asked) => SendKeepsAlive(s.conn, data, asked); StillAlive(s, t, SendTask(data));
    case Shutdown(_) =>
      ShutdownKeepsAlive(s.conn);
      ShutdownKeepsAlive(ShutdownState(s.conn));
      StillAlive(s, t, ShutdownTask);
    case ForceClose => ShutdownKeepsAlive(s.conn); StillAlive(s, t, ForceCloseTask);
    case StartRead(_) => ReadKeepsAlive(s.conn); StillAlive(s, t, StartReadTask);
    case StopRead(_) => ReadKeepsAlive(s.conn); StillAlive(s, t, StopReadTask);
  }

  // A closed connection is asked to read or not to read, now or by a functor, and is not doomed by it.
  lemma StillShut(s: Sys, t: Sys, task: Task)
    requires LifeInv(s) && Shut(s.conn) && !Doomed(t) && (task.StartReadTask? || task.StopReadTask?)
    requires t == s.(pending := s.pending + [task]) || t == s.(conn := RunTask(s.conn, task, WouldBlock))
    ensures LifeInv(t)
  {
    Facts(s);
    ShutTask(s.conn, task, WouldBlock);
    TimesAppend(s.pending, task, Establish);
    TimesAppend(s.pending, task, Destroy);
    NotDoomed(t);
    hide Doomed, RunAll, OneCloser, NoCloser, RunTask;
  }

  lemma UserStepShut(s: Sys, step: Step)
    requires LifeInv(s) && Enabled(s, step) && Careful(s, step) && s.conn.state.Disconnected?
    requires step.Send? || step.Shutdown? || step.ForceClose? || step.StartRead? || step.StopRead?
    ensures LifeInv(Apply(s, step)) && Apply(s, step).conn.state.Disconnected?
  {
    Facts(s);
    hide LifeInv, Doomed, Shut, StartReadInLoop, StopReadInLoop;
    if step.StartRead? || step.StopRead? {
      StillShut(s, Apply(s, step), if step.StartRead? then StartReadTask else StopReadTask);
    }
  }

  lemma QueueStepKeepsInv(s: Sys, step: Step)
    requires LifeInv(s) && Enabled(s, step) && (step.EndDispatch? || step.EndRun?)
    ensures LifeInv(Apply(s, step))
  {
    Facts(s);
    if s.conn.state.Disconnected? { DoomAfterLoopStep(s, step); }
    WaitingMoves(s, step);
    hide Doomed, Life, OneCloser, Waiting;
    assert OneCloser([]) by { NobodyCloses(); }
  }

  lemma NobodyCloses()
    ensures OneCloser([]) && NoCloser([])
  {
  }

  lemma WaitingMoves(s: Sys, step: Step)
    requires Enabled(s, step) && (step.EndDispatch? || step.EndRun?) && (s.phase.Running? || s.batch == [])
    ensures forall t: Task :: Waiting(Apply(s, step), t) == Waiting(s, t)
  {
    forall t: Task ensures Waiting(Apply(s, step), t) == Waiting(s, t) { TimesAppend([], t, t); }
  }

  lemma PollKeepsInv(s: Sys, step: Step)
    requires LifeInv(s) && Enabled(s, step) && step.Poll?
    ensures LifeInv(Apply(s, step))
  {
    Facts(s);
    MaskOf(s.conn);
    Healthy(s);
    OneCloserPerDispatch(s.conn.channel, step.revents);
    NobodyCloses();
    if s.conn.state.Disconnected? { DoomAfterLoopStep(s, step); }
    hide LifeInv, Doomed, Life, OneCloser, NoCloser, Handlers, Unborn, Waiting, Reportable;
    assert !Open(s.conn) ==> Handlers(step.revents) == [];
    DispatchKeepsInv(s, Handlers(step.revents));
  }

  lemma DispatchKeepsInv(s: Sys, todo: seq<Handler>)
    requires LifeInv(s) && s.phase.Polling? && OneCloser(todo) && (!Open(s.conn) ==> NoCloser(todo))
    requires s.conn.state.Disconnected? ==> !Doomed(s.(phase := Dispatching(todo)))
    ensures LifeInv(s.(phase := Dispatching(todo)))
  {
    hide Doomed, Life, OneCloser, NoCloser;
  }

  lemma MaskOf(c: Conn)
    requires Life(c)
    ensures c.channel.events <= I.READ_EVENT + I.WRITE_EVENT && (c.state.Connecting? ==> !Listed(c))
    ensures c.state.Disconnected? ==> !Writing(c)
  {
    OpenMarks(c.reading, c.output != []);
    hide OpenMark;
  }

  lemma QueueDestroyKeepsInv(s: Sys)
    requires LifeInv(s) && Enabled(s, QueueDestroy)
    ensures LifeInv(Apply(s, QueueDestroy))
  {
    Facts(s);
    DoomAfterDestroy(s);
    hide Doomed, Life, OneCloser, NoCloser;
    TimesAppend(s.pending, Destroy, Establish);
    TimesAppend(s.pending, Destroy, Destroy);
  }

  lemma TodoTail(todo: seq<Handler>)
    requires todo != [] && OneCloser(todo)
    ensures OneCloser(todo[1..]) && (Closer(todo[0]) || NoCloser(todo) ==> NoCloser(todo[1..]))
  {
    if Closer(todo[0]) || NoCloser(todo) {
      forall h <- todo[1..] ensures !Closer(h) {
        var j :| 0 <= j < |todo| - 1 && todo[1..][j] == h;
        assert todo[j + 1] == h;
      }
    }
  }

  lemma HandleKeepsInv(s: Sys, read: ReadResult, asked: WriteResult)
    requires LifeInv(s) && Enabled(s, Handle(read, asked)) && Careful(s, Handle(read, asked))
    ensures LifeInv(Apply(s, Handle(read, asked)))
    ensures Rank(s.conn.state) <= Rank(Apply(s, Handle(read, asked)).conn.state)
  {
    Facts(s);
    var todo := s.phase.todo;
    TodoTail(todo);
    assert todo[0] in todo;
    if Open(s.conn) {
      HandlerKeepsAlive(s.conn, todo[0], read, asked);
    } else {
      QuietHandler(s.conn, todo[0], read, asked);
    }
    hide RunHandler, Life, OneCloser, NoCloser, RunAll, Sick;
  }

  // A handler that cannot close does nothing to a connection that is not open.
  lemma QuietHandler(c: Conn, h: Handler, read: ReadResult, asked: WriteResult)
    requires Life(c) && !Open(c) && !Closer(h)
    ensures RunHandler(c, h, read, asked) == c
  {
    MaskOf(c);
  }

  lemma RunOneOpen(s: Sys, asked: WriteResult)
    requires LifeInv(s) && Enabled(s, RunOne(asked)) && Careful(s, RunOne(asked)) && Open(s.conn)
    ensures LifeInv(Apply(s, RunOne(asked)))
    ensures Rank(s.conn.state) <= Rank(Apply(s, RunOne(asked)).conn.state)
  {
    Facts(s);
    var task := s.batch[0];
    TimesHead(s.batch, Establish);
    TimesHead(s.batch, Destroy);
    TaskKeepsAlive(s.conn, task, asked);
    hide RunTask, Life, OneCloser, NoCloser, RunAll, Sick;
  }

  lemma RunOneShut(s: Sys, asked: WriteResult)
    requires LifeInv(s) && Enabled(s, RunOne(asked)) && s.conn.state.Disconnected?
    ensures LifeInv(Apply(s, RunOne(asked)))
    ensures Apply(s, RunOne(asked)).conn.state.Disconnected?
  {
    Facts(s);
    TimesHead(s.batch, Establish);
    TimesHead(s.batch, Destroy);
    ShutTask(s.conn, s.batch[0], asked);
    DoomAfterTask(s, asked);
    NotDoomed(Apply(s, RunOne(asked)));
    hide RunTask, OneCloser, NoCloser, RunAll, Doomed, Sick;
  }

  lemma RunOneUnborn(s: Sys, asked: WriteResult)
    requires LifeInv(s) && Enabled(s, RunOne(asked)) && s.conn.state.Connecting?
    ensures LifeInv(Apply(s, RunOne(asked)))
  {
    Facts(s);
    TimesHead(s.batch, Establish);
    TimesHead(s.batch, Destroy);
    assert s.batch[0] in s.batch;
    EstablishOpens(s.conn);
    hide Doomed, Life, OneCloser, NoCloser, OpenMark;
  }

  lemma StepKeepsLife(s: Sys, step: Step)
    requires LifeInv(s) && Enabled(s, step) && Careful(s, step)
    ensures LifeInv(Apply(s, step)) && Rank(s.conn.state) <= Rank(Apply(s, step).conn.state)
  {
    Facts(s);
    hide LifeInv, Careful, Doomed, Life;
    match step
    case Handle(read, asked) => HandleKeepsInv(s, read, asked);
    case RunOne(asked) =>
      if Open(s.conn) { RunOneOpen(s, asked); }
      else if s.conn.state.Disconnected? { RunOneShut(s, asked); }
      else { RunOneUnborn(s, asked); }
    case Poll(_) => PollKeepsInv(s, step);
    case EndDispatch => QueueStepKeepsInv(s, step);
    case EndRun => QueueStepKeepsInv(s, step);
    case QueueDestroy => QueueDestroyKeepsInv(s);
    case _ => if Open(s.conn) { UserStepOpen(s, step); } else { UserStepShut(s, step); }
  }

  lemma StartLives()
    ensures LifeInv(Start)
  {
    assert Times([Establish], Establish) == 1 && Times([Establish], Destroy) == 0;
    TimesAppend([], Establish, Establish);
    TimesAppend([], Destroy, Destroy);
  }

  lemma {:induction false} RunKeepsLife(s: Sys, steps: seq<Step>)
    requires LifeInv(s) && CarefulRun(s, steps)
    ensures Possible(s, steps) && LifeInv(Exec(s, steps))
    ensures Rank(s.conn.state) <= Rank(Exec(s, steps).conn.state)
    decreases |steps|
  {
    CarefulIsPossible(s, steps);
    if steps != [] {
      StepKeepsLife(s, steps[0]);
      RunKeepsLife(Apply(s, steps[0]), steps[1..]);
    }
  }

  /** The life of a connection, over every careful run, with reading stopped and started at will: no assertion fails
      (so handleClose runs only on an open connection, and a channel is removed only when it is silent and known); up
      is reported once, down and closed at most once and only together; an open connection is in epoll with exactly
      the events it waits for, so that epoll can report input exactly while it reads and writability exactly while bytes
      are buffered; a closed one is never in epoll when the loop polls; connectDestroyed happens at most once, after the
      close, and for good, and has happened when it was queued and nothing is queued any more. */
  lemma LifeCycle(steps: seq<Step>)
    requires CarefulRun(Start, steps)
    ensures Possible(Start, steps)
    ensures var s, c := Exec(Start, steps), Exec(Start, steps).conn;
      && !c.failed
      && c.ups == (if c.state.Connecting? then 0 else 1)
      && c.downs == c.closes == (if c.state.Disconnected? then 1 else 0)
      && (Open(c) ==> c.channel == OpenMark(c.reading, c.output != []))
      && (Open(c) ==> (Reportable(c.channel, {I.In}) <==> c.reading))
      && (Open(c) ==> (Reportable(c.channel, {I.Out}) <==> c.output != []))
      && (s.phase.Polling? && c.state.Disconnected? ==> !c.channel.index.Added?)
      && c.destroyed <= c.closes
      && (c.destroyed == 1 ==> c.channel == I.Fresh)
      && (s.destroyQueued && s.batch == [] && s.pending == [] ==> c.destroyed == 1)
  {
    StartLives();
    TimesAppend([], Destroy, Destroy);
    RunKeepsLife(Start, steps);
    Facts(Exec(Start, steps));
    OpenIsReported(Exec(Start, steps).conn);
    hide Life, OpenMark, OneCloser, NoCloser, Reportable;
    Healthy(Exec(Start, steps));
  }

  lemma OpenIsReported(c: Conn)
    requires Life(c)
    ensures Alive(c) ==> (Reportable(c.channel, {I.In}) <==> c.reading)
    ensures Alive(c) ==> (Reportable(c.channel, {I.Out}) <==> c.output != [])
  {
    OpenMarks(c.reading, c.output != []);
    assert I.In in {I.In} && I.Out in {I.Out};
  }

  lemma Healthy(s: Sys)
    requires LifeInv(s)
    ensures !Sick(s.conn) && (s.phase.Polling? && s.conn.state.Disconnected? ==> !Listed(s.conn))
  {
  }

  /** The state only moves forward. */
  lemma StateMovesForward(steps: seq<Step>, more: seq<Step>)
    requires CarefulRun(Start, steps) && Possible(Start, steps) && CarefulRun(Exec(Start, steps), more)
    ensures Possible(Exec(Start, steps), more)
    ensures Rank(Exec(Start, steps).conn.state) <= Rank(Exec(Exec(Start, steps), more).conn.state)
  {
    StartLives();
    RunKeepsLife(Start, steps);
    RunKeepsLife(Exec(Start, steps), more);
  }
}
