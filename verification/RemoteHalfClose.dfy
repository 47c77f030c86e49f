/** shutdown from another thread: the state changes at once, the half-close is queued. In between handleWrite
    may drain the buffer, see the new state and half-close by itself, ahead of the messages still queued. */
module RemoteHalfClose {
  import opened Connection
  import opened ConnectionRuns
  import opened ConnectionLife
  import opened HalfClose
  import I = Interest

  // A message with something in it, on its way to sendInLoop.
  predicate Loaded(t: Task) {
    t.SendTask? && t.data != []
  }

  ghost predicate HasLoad(tasks: seq<Task>) {
    exists t <- tasks :: Loaded(t)
  }

  /** The buffer may drain before functors queued now are run: something is in it, or the batch being run puts
      something in it, and a writable event comes first. A hang-up that is being dispatched comes before that. */
  ghost predicate DrainsFirst(s: Sys) {
    match s.phase
    case Polling => s.conn.output != []
    case Dispatching(todo) => s.conn.output != [] && OnWrite in todo && OnClose !in todo
    case Running => s.conn.output != [] || HasLoad(s.batch)
  }

  // ---- when the buffer cannot drain first ----

  // Neither connecting, nor connected: shutdown or a close has been asked for.
  predicate Leaving(c: Conn) {
    c.state.Disconnecting? || c.state.Disconnected?
  }

  /** The queued half-close is still behind `before` and ahead of `after`. */
  ghost predicate Waits(s: Sys, before: seq<Task>, after: seq<Task>) {
    && Leaving(s.conn) && CloseFirst(Todo(s.phase))
    && (s.phase.Running? || s.batch == [])
    && s.batch + s.pending == before + [ShutdownTask] + after
    && OnlyMild(before) && NoneLeft(after)
    && s.conn.fins == 0 && s.conn.lost == 0
    && (|s.batch| > |before| || (Open(s.conn) ==> !DrainsFirst(s)))
  }

  lemma QueueKeepsWaiting(s: Sys, before: seq<Task>, after: seq<Task>, task: Task)
    requires Waits(s, before, after) && NoneLeft([task])
    ensures Waits(s.(pending := s.pending + [task]), before, after + [task])
    ensures Waits(s.(pending := s.pending + [task], destroyQueued := true), before, after + [task])
  {
    assert task in [task];
    assert s.batch + (s.pending + [task]) == s.batch + s.pending + [task];
    assert before + [ShutdownTask] + (after + [task]) == before + [ShutdownTask] + after + [task];
  }

  lemma HandleKeepsWaiting(s: Sys, before: seq<Task>, after: seq<Task>, read: ReadResult, asked: WriteResult)
    requires Waits(s, before, after) && Enabled(s, Handle(read, asked)) && LifeInv(s)
    ensures Waits(Apply(s, Handle(read, asked)), before, after)
  {
    Facts(s);
    WatchingOf(s.conn);
    hide LifeInv, OnlyMild, NoneLeft, Life;
    var todo := s.phase.todo;
    assert OnWrite in todo[1..] ==> OnWrite in todo;
    assert OnClose in todo ==> todo[0].OnClose?;
    WriteKeeps(s.conn, asked);
    WriteKeepsState(s.conn, asked);
  }

  lemma RunOneKeepsWaiting(s: Sys, before: seq<Task>, after: seq<Task>, asked: WriteResult)
    requires Waits(s, before, after) && Enabled(s, RunOne(asked)) && before != []
    ensures Waits(Apply(s, RunOne(asked)), before[1..], after)
  {
    hide NoneLeft, SendInLoop;
    var task := s.batch[0];
    QueueTail(s.batch, s.pending, before, after);
    assert before[0] in before && task in s.batch;
    if task.SendTask? {
      SendKeepsState(s.conn, task.data, asked);
      SendBeforeFin(s.conn, task.data, asked);
    }
    assert OnlyMild(before[1..]);
    assert HasLoad(s.batch[1..]) ==> HasLoad(s.batch);
  }

  lemma QueueTail(batch: seq<Task>, pending: seq<Task>, before: seq<Task>, after: seq<Task>)
    requires batch != [] && batch + pending == before + [ShutdownTask] + after
    ensures before != [] ==> batch[0] == before[0] && batch[1..] + pending == before[1..] + [ShutdownTask] + after
    ensures before == [] ==> batch[0] == ShutdownTask && batch[1..] + pending == after
  {
    assert (batch + pending)[0] == batch[0] && (batch + pending)[1..] == batch[1..] + pending;
    var queue := before + [ShutdownTask] + after;
    if before == [] {
      assert queue == [ShutdownTask] + after && queue[1..] == after;
    } else {
      assert queue[0] == before[0] && queue[1..] == before[1..] + [ShutdownTask] + after;
    }
  }

  lemma SendBeforeFin(c: Conn, data: seq<Byte>, asked: WriteResult)
    requires c.fins == 0
    ensures SendInLoop(c, data, asked).fins == 0 && SendInLoop(c, data, asked).lost == c.lost
    ensures data == [] && c.output == [] ==> SendInLoop(c, data, asked).output == []
  {
  }

  lemma HalfCloseSettles(s: Sys, after: seq<Task>, asked: WriteResult)
    requires Waits(s, [], after) && LifeInv(s) && Enabled(s, RunOne(asked))
    ensures Settled(Apply(s, RunOne(asked)), 0)
  {
    Facts(s);
    WatchingOf(s.conn);
    hide LifeInv, Life;
    QueueTail(s.batch, s.pending, [], after);
    assert forall t <- s.batch[1..] :: t in after;
    assert forall t <- s.pending :: t in after;
  }

  lemma LoopKeepsWaiting(s: Sys, before: seq<Task>, after: seq<Task>, step: Step)
    requires Waits(s, before, after) && Enabled(s, step)
    requires step.Poll? || step.EndDispatch? || step.EndRun?
    ensures Waits(Apply(s, step), before, after)
  {
    hide OnlyMild, NoneLeft;
    match step
    case Poll(revents) => HandlersCloseFirst(revents);
    case EndDispatch => assert s.pending + [] == [] + s.pending;
    case EndRun =>
  }

  // A call by the user, or the close callback's way back.
  lemma CallKeepsWaiting(s: Sys, before: seq<Task>, after: seq<Task>, step: Step) returns (after': seq<Task>)
    requires Waits(s, before, after) && Enabled(s, step) && !step.Shutdown?
    requires !step.Handle? && !step.RunOne? && !step.Poll? && !step.EndDispatch? && !step.EndRun?
    ensures Waits(Apply(s, step), before, after')
  {
    after' := after;
    if step.ForceClose? && Open(s.conn) {
      QueueKeepsWaiting(s, before, after, ForceCloseTask);
      assert ForceCloseState(s.conn) == s.conn;
      after' := after + [ForceCloseTask];
    } else if step.StartRead? && !step.inLoop {
      QueueKeepsWaiting(s, before, after, StartReadTask);
      after' := after + [StartReadTask];
    } else if step.StopRead? && !step.inLoop {
      QueueKeepsWaiting(s, before, after, StopReadTask);
      after' := after + [StopReadTask];
    } else if step.QueueDestroy? {
      QueueKeepsWaiting(s, before, after, Destroy);
      after' := after + [Destroy];
    }
  }

  /** One step leaves the half-close waiting, or runs it. */
  lemma WaitingStep(s: Sys, before: seq<Task>, after: seq<Task>, step: Step)
    returns (before': seq<Task>, after': seq<Task>)
    requires Waits(s, before, after) && LifeInv(s) && Enabled(s, step) && Proper(s, step)
    ensures LifeInv(Apply(s, step))
    ensures Settled(Apply(s, step), 0) || Waits(Apply(s, step), before', after')
  {
    StepKeepsLife(s, step);
    assert !s.conn.state.Connected?;
    hide LifeInv, Careful, Waits;
    before', after' := before, after;
    match step
    case Handle(read, asked) => HandleKeepsWaiting(s, before, after, read, asked);
    case RunOne(asked) =>
      if before == [] {
        HalfCloseSettles(s, after, asked);
      } else {
        RunOneKeepsWaiting(s, before, after, asked);
        before' := before[1..];
      }
    case Poll(_) => LoopKeepsWaiting(s, before, after, step);
    case EndDispatch => LoopKeepsWaiting(s, before, after, step);
    case EndRun => LoopKeepsWaiting(s, before, after, step);
    case _ => after' := CallKeepsWaiting(s, before, after, step);
  }

  lemma {:induction false} WaitingRun(s: Sys, before: seq<Task>, after: seq<Task>, steps: seq<Step>)
    requires Waits(s, before, after) && LifeInv(s) && ProperRun(s, steps)
    ensures Possible(s, steps) && Exec(s, steps).conn.fins <= 1 && Exec(s, steps).conn.lost == 0
    decreases |steps|
  {
    ProperIsCareful(s, steps);
    if steps != [] {
      var before', after' := WaitingStep(s, before, after, steps[0]);
      if Settled(Apply(s, steps[0]), 0) {
        ProperStaysSettled(Apply(s, steps[0]), steps[1..]);
      } else {
        WaitingRun(Apply(s, steps[0]), before', after', steps[1..]);
      }
    }
  }

  // ---- when it can ----

  ghost predicate Reaches(s: Sys, r: Sys) {
    exists steps :: ProperRun(s, steps) && Possible(s, steps) && Exec(s, steps) == r
  }

  lemma ReachesSelf(s: Sys)
    ensures Reaches(s, s)
  {
    assert ProperRun(s, []) && Possible(s, []) && Exec(s, []) == s;
  }

  lemma ReachesVia(s: Sys, step: Step, r: Sys)
    requires Enabled(s, step) && Proper(s, step) && Reaches(Apply(s, step), r)
    ensures Reaches(s, r)
  {
    var steps :| ProperRun(Apply(s, step), steps) && Possible(Apply(s, step), steps)
        && Exec(Apply(s, step), steps) == r;
    assert ([step] + steps)[0] == step && ([step] + steps)[1..] == steps;
    assert ProperRun(s, [step] + steps) && Possible(s, [step] + steps) && Exec(s, [step] + steps) == r;
  }

  // Shutting down, with the buffer watched and no half-close yet.
  ghost predicate Draining(c: Conn) {
    c.state.Disconnecting? && Life(c) && Alive(c) && c.fins == 0 && c.lost == 0
  }

  // An open connection that stays open makes no careless step.
  lemma OpenIsProper(s: Sys, step: Step)
    requires Open(s.conn) && Enabled(s, step) && !step.Shutdown?
    requires Open(Apply(s, step).conn) || Apply(s, step).conn.closes == s.conn.closes
    requires step.StartRead? || step.StopRead? ==> Open(Apply(s, step).conn)
    ensures Proper(s, step)
  {
    hide Doomed;
  }

  ghost predicate HalfClosed(c: Conn) {
    c.state.Disconnecting? && c.fins > 0 && c.output == [] && !Writing(c)
  }

  lemma ReadAfterFin(c: Conn)
    requires HalfClosed(c)
    ensures HalfClosed(StartReadInLoop(c)) && HalfClosed(StopReadInLoop(c))
  {
  }

  lemma SendAfterFin(c: Conn, data: seq<Byte>)
    requires HalfClosed(c)
    ensures HalfClosed(SendInLoop(c, data, WouldBlock)) && SendInLoop(c, data, WouldBlock).fins == c.fins
    ensures SendInLoop(c, data, WouldBlock).lost == c.lost + if data != [] then 1 else 0
  {
  }

  /** Messages overtaken by the half-close are lost, and the queued half-close comes on top. */
  lemma {:induction false} FlushAfterFin(s: Sys, before: seq<Task>, after: seq<Task>) returns (r: Sys)
    requires s.phase.Running? && HalfClosed(s.conn) && OnlyMild(before)
    requires s.batch == before + [ShutdownTask] + after
    ensures Reaches(s, r) && r.conn.fins == s.conn.fins + 1
    ensures r.conn.lost >= s.conn.lost + if HasLoad(before) then 1 else 0
    decreases |before|
  {
    var t := Apply(s, RunOne(WouldBlock));
    if before == [] {
      assert s.batch[0] == ([ShutdownTask] + after)[0];
      r := t;
      ReachesSelf(r);
    } else {
      assert s.batch[0] == before[0] && before[0] in before;
      assert s.batch[1..] == before[1..] + [ShutdownTask] + after;
      if before[0].SendTask? { SendAfterFin(s.conn, before[0].data); }
      ReadAfterFin(s.conn);
      r := FlushAfterFin(t, before[1..], after);
      if x :| x in before && Loaded(x) {
        assert x == before[0] || x in before[1..];
      }
    }
    OpenIsProper(s, RunOne(WouldBlock));
    ReachesVia(s, RunOne(WouldBlock), r);
  }

  /** The rest of a dispatch does nothing to a half-closed connection; then the queue is taken. */
  lemma {:induction false} DispatchToBatch(s: Sys, before: seq<Task>, after: seq<Task>) returns (r: Sys)
    requires s.phase.Dispatching? && HalfClosed(s.conn) && OnClose !in s.phase.todo
    requires s.pending == before + [ShutdownTask] + after && OnlyMild(before)
    ensures Reaches(s, r) && r.conn.fins == s.conn.fins + 1
    ensures r.conn.lost >= s.conn.lost + if HasLoad(before) then 1 else 0
    decreases |s.phase.todo|
  {
    var step := if s.phase.todo == [] then EndDispatch else Handle(Data, WouldBlock);
    if s.phase.todo == [] {
      r := FlushAfterFin(Apply(s, step), before, after);
    } else {
      assert s.phase.todo[0] in s.phase.todo;
      r := DispatchToBatch(Apply(s, step), before, after);
    }
    OpenIsProper(s, step);
    ReachesVia(s, step, r);
  }

  lemma DrainHalfCloses(c: Conn)
    requires Draining(c) && c.output != []
    ensures HalfClosed(HandleWrite(c, Wrote(|c.output|))) && HandleWrite(c, Wrote(|c.output|)).fins == 1
    ensures HandleWrite(c, Wrote(|c.output|)).lost == 0
  {
    WatchingOf(c);
  }

  lemma {:induction false} DispatchDrains(s: Sys, before: seq<Task>, after: seq<Task>) returns (r: Sys)
    requires s.phase.Dispatching? && Draining(s.conn) && s.conn.output != []
    requires OnWrite in s.phase.todo && OnClose !in s.phase.todo
    requires s.pending == before + [ShutdownTask] + after && OnlyMild(before)
    ensures Reaches(s, r) && r.conn.fins == 2 && r.conn.lost >= if HasLoad(before) then 1 else 0
    decreases |s.phase.todo|
  {
    var step := Handle(Data, Wrote(|s.conn.output|));
    var t := Apply(s, step);
    assert s.phase.todo[0] in s.phase.todo;
    if s.phase.todo[0].OnWrite? {
      DrainHalfCloses(s.conn);
      r := DispatchToBatch(t, before, after);
    } else {
      r := DispatchDrains(t, before, after);
    }
    OpenIsProper(s, step);
    ReachesVia(s, step, r);
  }

  lemma PollDrains(s: Sys, before: seq<Task>, after: seq<Task>) returns (r: Sys)
    requires s.phase.Polling? && Draining(s.conn) && s.conn.output != []
    requires s.pending == before + [ShutdownTask] + after && OnlyMild(before)
    ensures Reaches(s, r) && r.conn.fins == 2 && r.conn.lost >= if HasLoad(before) then 1 else 0
  {
    var step := Poll({I.Out});
    WatchingOf(s.conn);
    OpenIsProper(s, step);
    assert Handlers({I.Out}) == [OnWrite];
    r := DispatchDrains(Apply(s, step), before, after);
    ReachesVia(s, step, r);
  }

  lemma SendFills(c: Conn, data: seq<Byte>)
    requires Draining(c)
    ensures Draining(SendInLoop(c, data, WouldBlock))
    ensures c.output != [] || data != [] ==> SendInLoop(c, data, WouldBlock).output != []
  {
    SendKeepsAlive(c, data, WouldBlock);
    SendBeforeFin(c, data, WouldBlock);
    hide Life, Alive;
  }

  lemma MildFills(c: Conn, task: Task)
    requires Draining(c) && Mild(task)
    ensures Draining(RunTask(c, task, WouldBlock))
    ensures c.output != [] || Loaded(task) ==> RunTask(c, task, WouldBlock).output != []
  {
    if task.SendTask? { SendFills(c, task.data); } else { ReadKeepsAlive(c); }
    hide Life, Alive, SendInLoop;
  }

  lemma {:induction false} BatchFillsThenDrains(s: Sys, before: seq<Task>, after: seq<Task>) returns (r: Sys)
    requires s.phase.Running? && Draining(s.conn) && OnlyMild(s.batch)
    requires s.conn.output != [] || HasLoad(s.batch)
    requires s.pending == before + [ShutdownTask] + after && OnlyMild(before)
    ensures Reaches(s, r) && r.conn.fins == 2 && r.conn.lost >= if HasLoad(before) then 1 else 0
    decreases |s.batch|
  {
    if s.batch == [] {
      r := PollDrains(Apply(s, EndRun), before, after);
      OpenIsProper(s, EndRun);
      ReachesVia(s, EndRun, r);
    } else {
      assert s.batch[0] in s.batch;
      MildFills(s.conn, s.batch[0]);
      if x :| x in s.batch && Loaded(x) {
        assert x == s.batch[0] || x in s.batch[1..];
      }
      r := BatchFillsThenDrains(Apply(s, RunOne(WouldBlock)), before, after);
      OpenIsProper(s, RunOne(WouldBlock));
      ReachesVia(s, RunOne(WouldBlock), r);
    }
  }

  lemma DrainAndFlush(s: Sys) returns (r: Sys)
    requires Before(s) && s.conn.state.Connected? && DrainsFirst(s) && Draining(ShutdownState(s.conn))
    ensures Enabled(s, Shutdown(false))
    ensures Reaches(Apply(s, Shutdown(false)), r) && r.conn.fins == 2
        && r.conn.lost >= if HasLoad(s.pending) then 1 else 0
  {
    Facts(s);
    var t := Apply(s, Shutdown(false));
    assert s.pending + [ShutdownTask] == s.pending + [ShutdownTask] + [];
    match s.phase
    case Polling => r := PollDrains(t, s.pending, []);
    case Dispatching(_) => r := DispatchDrains(t, s.pending, []);
    case Running => r := BatchFillsThenDrains(t, s.pending, []);
  }

  // ---- when nothing is queued to be lost ----

  /** Whatever is still to be sent is sent before any half-close. */
  ghost predicate NothingToLose(s: Sys) {
    && !s.conn.state.Connected? && s.conn.lost == 0
    && (s.phase.Running? || s.batch == [])
    && !HasLoad(s.pending)
    && (HasLoad(s.batch) ==> s.conn.fins == 0 && ShutdownTask !in s.batch && Establish !in s.batch)
    && Establish !in s.batch && Establish !in s.pending
  }

  lemma NothingToLoseStep(s: Sys, step: Step)
    requires NothingToLose(s) && Enabled(s, step) && Proper(s, step)
    ensures NothingToLose(Apply(s, step))
  {
    match step
    case RunOne(asked) =>
      var task, rest := s.batch[0], s.batch[1..];
      assert task in s.batch && forall t <- rest :: t in s.batch;
      if task.SendTask? { SendKeepsState(s.conn, task.data, asked); SendLoses(s.conn, task.data, asked); }
    case Handle(_, asked) => HandlerLoses(s.conn, s.phase.todo[0], step.read, asked);
    case ForceClose => assert forall t <- s.pending + [ForceCloseTask] :: t in s.pending || t == ForceCloseTask;
    case StartRead(_) => assert forall t <- s.pending + [StartReadTask] :: t in s.pending || t == StartReadTask;
    case StopRead(_) => assert forall t <- s.pending + [StopReadTask] :: t in s.pending || t == StopReadTask;
    case QueueDestroy => assert forall t <- s.pending + [Destroy] :: t in s.pending || t == Destroy;
    case _ =>
  }

  lemma SendLoses(c: Conn, data: seq<Byte>, asked: WriteResult)
    ensures c.fins == 0 || data == [] ==> SendInLoop(c, data, asked).lost == c.lost
    ensures SendInLoop(c, data, asked).fins == c.fins
  {
  }

  lemma HandlerLoses(c: Conn, h: Handler, read: ReadResult, asked: WriteResult)
    ensures RunHandler(c, h, read, asked).lost == c.lost
    ensures RunHandler(c, h, read, asked).state == c.state || RunHandler(c, h, read, asked).state == Disconnected
  {
  }

  lemma {:induction false} NothingToLoseRun(s: Sys, steps: seq<Step>)
    requires NothingToLose(s) && ProperRun(s, steps) && Possible(s, steps)
    ensures Exec(s, steps).conn.lost == 0
    decreases |steps|
  {
    if steps != [] {
      NothingToLoseStep(s, steps[0]);
      NothingToLoseRun(Apply(s, steps[0]), steps[1..]);
    }
  }

  // ---- exactly ----

  ghost predicate CanHalfCloseTwice(s: Sys) {
    exists r :: Reaches(s, r) && r.conn.fins >= 2
  }

  ghost predicate CanLoseMessages(s: Sys) {
    exists r :: Reaches(s, r) && r.conn.lost > 0
  }

  /** shutdown called from another thread while connected: some continuation half-closes twice exactly when the
      buffer may drain before the queued shutdown runs, and some continuation loses messages sent before the
      call exactly when, besides, a message is queued at the time. */
  lemma RemoteHalfCloseIff(s: Sys)
    requires Before(s) && s.conn.state.Connected?
    ensures Enabled(s, Shutdown(false))
    ensures CanHalfCloseTwice(Apply(s, Shutdown(false))) <==> DrainsFirst(s)
    ensures CanLoseMessages(Apply(s, Shutdown(false))) <==> DrainsFirst(s) && HasLoad(s.pending)
  {
    Asked(s);
    var t := Apply(s, Shutdown(false));
    if DrainsFirst(s) {
      var r := DrainAndFlush(s);
    } else {
      SafeWhenNotDrained(s);
    }
    if !HasLoad(s.pending) {
      assert NothingToLose(t) by {
        assert forall x <- s.pending + [ShutdownTask] :: x in s.pending || x == ShutdownTask;
        hide LifeInv;
      }
      forall r | Reaches(t, r) ensures r.conn.lost == 0 {
        var steps :| ProperRun(t, steps) && Possible(t, steps) && Exec(t, steps) == r;
        NothingToLoseRun(t, steps);
      }
    }
  }

  // The call itself.
  lemma Asked(s: Sys)
    requires Before(s) && s.conn.state.Connected?
    ensures Enabled(s, Shutdown(false)) && LifeInv(Apply(s, Shutdown(false)))
    ensures Draining(ShutdownState(s.conn)) && (s.phase.Running? || s.batch == [])
  {
    Facts(s);
    ShutdownKeepsAlive(s.conn);
    assert Careful(s, Shutdown(false)) by { hide LifeInv, Doomed; }
    StepKeepsLife(s, Shutdown(false));
    hide LifeInv, Life, Alive;
  }

  lemma SafeWhenNotDrained(s: Sys)
    requires Before(s) && s.conn.state.Connected? && !DrainsFirst(s)
    ensures Enabled(s, Shutdown(false))
    ensures forall r | Reaches(Apply(s, Shutdown(false)), r) :: r.conn.fins <= 1 && r.conn.lost == 0
  {
    Asked(s);
    var t := Apply(s, Shutdown(false));
    var before := s.batch + s.pending;
    assert s.batch + (s.pending + [ShutdownTask]) == before + [ShutdownTask] + [];
    assert Waits(t, before, []) by { hide LifeInv; }
    forall r | Reaches(t, r) ensures r.conn.fins <= 1 && r.conn.lost == 0 {
      var steps :| ProperRun(t, steps) && Possible(t, steps) && Exec(t, steps) == r;
      WaitingRun(t, before, [], steps);
    }
  }

  // ---- it happens ----

  lemma {:induction false} ReachesThen(s: Sys, steps: seq<Step>, step: Step)
    requires ProperRun(s, steps) && Possible(s, steps)
    requires Enabled(Exec(s, steps), step) && Proper(Exec(s, steps), step)
    ensures Reaches(s, Apply(Exec(s, steps), step))
    decreases |steps|
  {
    if steps == [] {
      ReachesSelf(Apply(s, step));
      ReachesVia(s, step, Apply(s, step));
    } else {
      ReachesThen(Apply(s, steps[0]), steps[1..], step);
      ReachesVia(s, steps[0], Apply(Exec(s, steps), step));
    }
  }

  lemma Onward(s: Sys, step: Step) returns (t: Sys)
    requires Reaches(Start, s) && Enabled(s, step) && Proper(s, step)
    ensures Reaches(Start, t) && t == Apply(s, step)
  {
    var steps :| ProperRun(Start, steps) && Possible(Start, steps) && Exec(Start, steps) == s;
    ReachesThen(Start, steps, step);
    t := Apply(s, step);
  }

  // Up, with nothing queued.
  lemma OpenHappens() returns (s: Sys)
    ensures Reaches(Start, s) && s.phase.Running? && s.batch == [] && s.pending == []
    ensures s.conn == ConnectEstablished(Created)
  {
    ReachesSelf(Start);
    hide Reaches;
    assert Handlers({}) == [];
    s := Onward(Start, Poll({}));
    s := Onward(s, EndDispatch);
    s := Onward(s, RunOne(WouldBlock));
  }

  // One other thread has sent a, which cannot be written yet.
  lemma BufferedHappens(a: seq<Byte>) returns (s: Sys)
    requires a != []
    ensures Reaches(Start, s) && s.phase.Running? && s.batch == [] && s.pending == []
    ensures s.conn.state.Connected? && s.conn.output == a && s.conn.closes == 0 && s.conn.ups == 1
  {
    s := OpenHappens();
    hide Reaches, SendInLoop;
    assert Handlers({}) == [];
    s := Onward(s, Send(a, false, WouldBlock));
    s := Onward(s, EndRun);
    s := Onward(s, Poll({}));
    s := Onward(s, EndDispatch);
    BlockedSend(s.conn, a);
    s := Onward(s, RunOne(WouldBlock));
  }

  /** One other thread sends a, then b while a is buffered: shutdown now can lose b and half-close twice. */
  lemma OvertakingHappens(a: seq<Byte>, b: seq<Byte>) returns (s: Sys)
    requires a != [] && b != []
    ensures Reaches(Start, s) && Before(s) && s.conn.state.Connected? && Enabled(s, Shutdown(false))
    ensures CanHalfCloseTwice(Apply(s, Shutdown(false))) && CanLoseMessages(Apply(s, Shutdown(false)))
  {
    s := BufferedHappens(a);
    s := Onward(s, Send(b, false, WouldBlock));
    assert s.pending[0] in s.pending && Loaded(s.pending[0]);
    ReachedBefore(s);
    RemoteHalfCloseIff(s);
  }

  lemma BlockedSend(c: Conn, data: seq<Byte>)
    requires c == ConnectEstablished(Created) && data != []
    ensures var d := SendInLoop(c, data, WouldBlock);
      d.state.Connected? && d.output == data && d.closes == 0 && d.ups == 1
  {
  }

  lemma ReachedBefore(s: Sys)
    requires Reaches(Start, s)
    ensures Before(s)
  {
    var steps :| ProperRun(Start, steps) && Possible(Start, steps) && Exec(Start, steps) == s;
    BeforeStart();
    RunKeepsBefore(Start, steps);
  }
}
