/** Carefulness is exactly what a connection needs: after any careless step some careful continuation, most often the
    loop's own, breaks it; after a careful one none does. */
module ConnectionCare {
  import opened Connection
  import opened ConnectionRuns
  import opened ConnectionLife
  import opened Queues
  import I = Interest

  ghost predicate CarefullyReaches(s: Sys, r: Sys) {
    exists steps :: CarefulRun(s, steps) && Possible(s, steps) && Exec(s, steps) == r
  }

  ghost predicate CanSicken(s: Sys) {
    exists r :: CarefullyReaches(s, r) && Sick(r.conn)
  }

  ghost predicate CanCloseTwice(s: Sys) {
    exists r :: CarefullyReaches(s, r) && r.conn.closes >= 2
  }

  lemma ReachesSelf(s: Sys)
    ensures CarefullyReaches(s, s)
  {
    assert CarefulRun(s, []) && Possible(s, []) && Exec(s, []) == s;
  }

  lemma ReachesVia(s: Sys, step: Step, r: Sys)
    requires Enabled(s, step) && Careful(s, step) && CarefullyReaches(Apply(s, step), r)
    ensures CarefullyReaches(s, r)
  {
    var t := Apply(s, step);
    var steps :| CarefulRun(t, steps) && Possible(t, steps) && Exec(t, steps) == r;
    assert ([step] + steps)[0] == step && ([step] + steps)[1..] == steps;
    assert CarefulRun(s, [step] + steps) && Possible(s, [step] + steps) && Exec(s, [step] + steps) == r;
  }

  // Once a connection was closed, only these calls can be careless.
  lemma LaterStepsAreCareful(s: Sys, step: Step)
    requires s.conn.closes > 0 && Enabled(s, step) && !step.Shutdown? && !step.StartRead? && !step.StopRead?
    ensures Careful(s, step)
  {
  }

  function Last(s: Sys): Conn {
    RunAll(RunAll(s.conn, s.batch), s.pending)
  }

  // ---- a closed connection that is doomed ----

  // Its hang-up is handled like that of an open one.
  lemma HangUp(s: Sys) returns (r: Sys)
    requires s.phase.Polling? && Shut(s.conn) && Listed(s.conn)
    ensures CarefullyReaches(s, r) && r.conn.closes == 2
  {
    var t := Apply(s, Poll({I.Hup}));
    assert Handlers({I.Hup}) == [OnClose];
    LaterStepsAreCareful(s, Poll({I.Hup}));
    LaterStepsAreCareful(t, Handle(Data, WouldBlock));
    r := Apply(t, Handle(Data, WouldBlock));
    ReachesSelf(r);
    ReachesVia(t, Handle(Data, WouldBlock), r);
    ReachesVia(s, Poll({I.Hup}), r);
  }

  lemma {:induction false} RunningSickens(s: Sys) returns (r: Sys)
    requires s.phase.Running? && Shut(s.conn) && Waiting(s, Establish) == 0 && Doomed(s)
    ensures CarefullyReaches(s, r) && Sick(r.conn) && (!Sick(Last(s)) ==> r.conn.closes >= 2)
    decreases 2 * |s.pending| + |s.batch|
  {
    var step := if s.batch != [] then RunOne(WouldBlock) else EndRun;
    var t := Apply(s, step);
    LaterStepsAreCareful(s, step);
    if s.batch != [] {
      TimesHead(s.batch, Establish);
      ShutTask(s.conn, s.batch[0], WouldBlock);
      r := RunningSickens(t);
      ReachesVia(s, step, r);
    } else if Listed(s.conn) {
      r := HangUp(t);
      ReachesVia(s, step, r);
    } else if s.pending == [] {
      r := s;
      ReachesSelf(r);
    } else {
      r := PollingSickens(t);
      ReachesVia(s, step, r);
    }
  }

  // Nothing happens until the queued functors run.
  lemma {:induction false} PollingSickens(s: Sys) returns (r: Sys)
    requires s.phase.Polling? && s.batch == [] && s.pending != []
    requires Shut(s.conn) && Waiting(s, Establish) == 0 && Doomed(s) && !Listed(s.conn)
    ensures CarefullyReaches(s, r) && Sick(r.conn) && (!Sick(Last(s)) ==> r.conn.closes >= 2)
    decreases 2 * |s.pending| + |s.batch|, 0
  {
    var t := Apply(s, Poll({}));
    assert Handlers({}) == [];
    LaterStepsAreCareful(s, Poll({}));
    var u := Apply(t, EndDispatch);
    LaterStepsAreCareful(t, EndDispatch);
    TimesAppend([], Establish, Establish);
    r := RunningSickens(u);
    ReachesVia(t, EndDispatch, r);
    ReachesVia(s, Poll({}), r);
  }

  lemma {:induction false} DispatchSickens(s: Sys) returns (r: Sys)
    requires s.phase.Dispatching? && s.batch == [] && NoCloser(s.phase.todo)
    requires Shut(s.conn) && Waiting(s, Establish) == 0 && Doomed(s)
    ensures CarefullyReaches(s, r) && Sick(r.conn) && (!Sick(Last(s)) ==> r.conn.closes >= 2)
    decreases |s.phase.todo|
  {
    var step := if s.phase.todo != [] then Handle(Data, WouldBlock) else EndDispatch;
    var t := Apply(s, step);
    LaterStepsAreCareful(s, step);
    TimesAppend([], Establish, Establish);
    if s.phase.todo != [] {
      assert s.phase.todo[0] in s.phase.todo;
      assert t.conn == s.conn;
      r := DispatchSickens(t);
    } else {
      r := RunningSickens(t);
    }
    ReachesVia(s, step, r);
  }

  lemma DoomedSickens(s: Sys) returns (r: Sys)
    requires NoCloser(Todo(s.phase)) && (s.phase.Running? || s.batch == [])
    requires Shut(s.conn) && Waiting(s, Establish) == 0 && Doomed(s)
    ensures CarefullyReaches(s, r) && Sick(r.conn) && (!Sick(Last(s)) ==> r.conn.closes >= 2)
  {
    if s.phase.Running? {
      r := RunningSickens(s);
    } else if s.phase.Dispatching? {
      r := DispatchSickens(s);
    } else if Listed(s.conn) {
      r := HangUp(s);
    } else if s.pending == [] {
      r := s;
      ReachesSelf(r);
    } else {
      r := PollingSickens(s);
    }
  }

  // ---- a closed connection that shutdown has reopened ----

  ghost predicate Reopened(s: Sys) {
    && s.conn.state.Disconnecting? && s.conn.closes == 1 && s.conn.ups > 0
    && Waiting(s, Establish) == 0 && NoCloser(Todo(s.phase)) && (s.phase.Running? || s.batch == [])
  }

  lemma ReopenedTask(c: Conn, task: Task)
    requires c.state.Disconnecting? && c.closes == 1 && !task.Establish?
    ensures var d := RunTask(c, task, WouldBlock);
      d.ups == c.ups && if task.ForceCloseTask? then d.closes == 2 else d.closes == 1 && d.state.Disconnecting?
  {
  }

  lemma {:induction false} BatchClosesTwice(s: Sys) returns (r: Sys)
    requires Reopened(s) && s.phase.Running? && (ForceCloseTask in s.batch || ForceCloseTask in s.pending)
    ensures CarefullyReaches(s, r) && r.conn.closes == 2
    decreases 2 * |s.pending| + |s.batch|
  {
    var step := if s.batch != [] then RunOne(WouldBlock) else EndRun;
    var t := Apply(s, step);
    LaterStepsAreCareful(s, step);
    if s.batch == [] {
      assert Handlers({}) == [];
      LaterStepsAreCareful(t, Poll({}));
      var u := Apply(t, Poll({}));
      LaterStepsAreCareful(u, EndDispatch);
      TimesAppend([], Establish, Establish);
      r := BatchClosesTwice(Apply(u, EndDispatch));
      ReachesVia(u, EndDispatch, r);
      ReachesVia(t, Poll({}), r);
    } else {
      TimesHead(s.batch, Establish);
      ReopenedTask(s.conn, s.batch[0]);
      assert s.batch == [s.batch[0]] + s.batch[1..];
      if s.batch[0].ForceCloseTask? {
        r := t;
        ReachesSelf(r);
      } else {
        r := BatchClosesTwice(t);
      }
    }
    ReachesVia(s, step, r);
  }

  lemma {:induction false} DispatchClosesTwice(s: Sys) returns (r: Sys)
    requires Reopened(s) && s.phase.Dispatching? && ForceCloseTask in s.pending
    ensures CarefullyReaches(s, r) && r.conn.closes == 2
    decreases |s.phase.todo|
  {
    var step := if s.phase.todo != [] then Handle(Data, WouldBlock) else EndDispatch;
    var t := Apply(s, step);
    LaterStepsAreCareful(s, step);
    TimesAppend([], Establish, Establish);
    if s.phase.todo != [] {
      assert s.phase.todo[0] in s.phase.todo;
      r := DispatchClosesTwice(t);
    } else {
      r := BatchClosesTwice(t);
    }
    ReachesVia(s, step, r);
  }

  // forceClose is all it takes.
  lemma ReopenedClosesTwice(s: Sys) returns (r: Sys)
    requires Reopened(s)
    ensures CarefullyReaches(s, r) && r.conn.closes == 2
  {
    var t := Apply(s, ForceClose);
    LaterStepsAreCareful(s, ForceClose);
    TimesAppend(s.pending, ForceCloseTask, Establish);
    assert ForceCloseTask in t.pending;
    if t.phase.Running? {
      r := BatchClosesTwice(t);
    } else if t.phase.Dispatching? {
      r := DispatchClosesTwice(t);
    } else {
      assert Handlers({}) == [];
      LaterStepsAreCareful(t, Poll({}));
      r := DispatchClosesTwice(Apply(t, Poll({})));
      ReachesVia(t, Poll({}), r);
    }
    ReachesVia(s, ForceClose, r);
  }

  // ---- exactly ----

  // What follows careful steps is healthy.
  lemma HealthyForever(s: Sys)
    requires LifeInv(s)
    ensures !CanSicken(s) && !CanCloseTwice(s)
  {
    forall r | CarefullyReaches(s, r) ensures !Sick(r.conn) && r.conn.closes <= 1 {
      var steps :| CarefulRun(s, steps) && Possible(s, steps) && Exec(s, steps) == r;
      RunKeepsLife(s, steps);
      Healthy(r);
    }
  }

  // The first close, whoever makes it.
  lemma FirstClose(s: Sys, step: Step)
    requires LifeInv(s) && Enabled(s, step) && s.conn.closes == 0 && Apply(s, step).conn.closes > 0
    ensures var t := Apply(s, step);
      && t.conn == HandleClose(s.conn) && Life(s.conn) && Alive(s.conn)
      && (step.Handle? || step.RunOne?)
      && NoCloser(Todo(t.phase)) && (t.phase.Running? || t.batch == [])
      && Waiting(t, Establish) == 0 && Waiting(t, Destroy) == 0
  {
    Facts(s);
    match step
    case Handle(read, asked) =>
      assert s.phase.todo[0] in s.phase.todo;
      TodoTail(s.phase.todo);
      HandlerKeepsAlive(s.conn, s.phase.todo[0], read, asked);
      hide LifeInv, Alive, Life;
    case RunOne(asked) =>
      TimesHead(s.batch, Establish);
      TimesHead(s.batch, Destroy);
      assert s.batch[0] in s.batch;
    case _ =>
  }

  lemma CarelessShutdown(s: Sys, step: Step)
    requires LifeInv(s) && Enabled(s, step) && step.Shutdown? && s.conn.state.Disconnected?
    ensures CanSicken(Apply(s, step)) && CanCloseTwice(Apply(s, step))
  {
    Facts(s);
    TimesAppend(s.pending, ShutdownTask, Establish);
    var t := Apply(s, step);
    assert Reopened(t) by { hide Doomed, OneCloser, NoCloser; }
    var r := ReopenedClosesTwice(t);
  }

  lemma CarelessRead(s: Sys, step: Step)
    requires LifeInv(s) && Enabled(s, step) && (step.StartRead? || step.StopRead?)
    requires Apply(s, step).conn.state.Disconnected? && Doomed(Apply(s, step))
    ensures CanSicken(Apply(s, step))
  {
    Facts(s);
    var t, task := Apply(s, step), if step.StartRead? then StartReadTask else StopReadTask;
    assert s.conn.state.Disconnected? by { hide LifeInv; }
    ShutTask(s.conn, task, WouldBlock);
    TimesAppend(s.pending, task, Establish);
    var r := DoomedSickens(t);
  }

  lemma CarelessClose(s: Sys, step: Step)
    requires LifeInv(s) && Enabled(s, step) && s.conn.closes == 0 && Apply(s, step).conn.closes > 0
    requires Doomed(Apply(s, step))
    ensures CanSicken(Apply(s, step))
  {
    FirstClose(s, step);
    CloseShuts(s.conn);
    var r := DoomedSickens(Apply(s, step));
  }

  /** Carefulness is exact: a step is careful if and only if no careful continuation finds an assertion broken, or the
      connection closed or destroyed twice, or its channel back with the poller after connectDestroyed. */
  lemma CarefulIff(s: Sys, step: Step)
    requires LifeInv(s) && Enabled(s, step)
    ensures Careful(s, step) <==> !CanSicken(Apply(s, step))
  {
    if Careful(s, step) {
      StepKeepsLife(s, step);
      HealthyForever(Apply(s, step));
    } else if step.Shutdown? && s.conn.state.Disconnected? {
      CarelessShutdown(s, step);
    } else if step.StartRead? || step.StopRead? {
      CarelessRead(s, step);
    } else {
      CarelessClose(s, step);
    }
  }

  // ---- in plain terms ----

  predicate AboutReading(task: Task) {
    task.StartReadTask? || task.StopReadTask?
  }

  ghost predicate NoneAboutReading(tasks: seq<Task>) {
    forall t <- tasks :: !AboutReading(t)
  }

  // Only connectDestroyed and the two read functors touch the channel of a closed connection.
  lemma {:induction false} OthersLeaveTheChannel(c: Conn, tasks: seq<Task>)
    requires Shut(c) && NoneAboutReading(tasks) && Times(tasks, Establish) == 0 && Times(tasks, Destroy) == 0
    ensures RunAll(c, tasks).channel == c.channel && (Sick(RunAll(c, tasks)) <==> Sick(c)) && Shut(RunAll(c, tasks))
    decreases |tasks|
  {
    if tasks != [] {
      assert tasks[0] in tasks;
      TimesHead(tasks, Establish);
      TimesHead(tasks, Destroy);
      ShutTask(c, tasks[0], WouldBlock);
      OthersLeaveTheChannel(RunTask(c, tasks[0], WouldBlock), tasks[1..]);
    }
  }

  lemma DoomedIffListed(s: Sys)
    requires Shut(s.conn) && !Sick(s.conn) && NoneAboutReading(s.batch) && NoneAboutReading(s.pending)
    requires Waiting(s, Establish) == 0 && Waiting(s, Destroy) == 0
    ensures (Doomed(s) <==> Listed(s.conn)) && !Sick(Last(s))
  {
    OthersLeaveTheChannel(s.conn, s.batch);
    OthersLeaveTheChannel(RunAll(s.conn, s.batch), s.pending);
    hide RunAll, Sick, Shut;
  }

  /** With no startRead or stopRead queued, a close can come to a second one exactly when nobody is reading and nothing
      is left to write: disableAll then puts the channel into epoll instead of taking it out. */
  lemma ClosesTwiceIffSilent(s: Sys, step: Step)
    requires LifeInv(s) && Enabled(s, step) && s.conn.closes == 0 && Apply(s, step).conn.closes > 0
    requires NoneAboutReading(s.batch) && NoneAboutReading(s.pending)
    ensures CanCloseTwice(Apply(s, step)) <==> !s.conn.reading && s.conn.output == []
    ensures Careful(s, step) <==> s.conn.reading || s.conn.output != []
  {
    var t := Apply(s, step);
    FirstClose(s, step);
    CloseShuts(s.conn);
    assert NoneAboutReading(t.batch) && NoneAboutReading(t.pending);
    DoomedIffListed(t);
    if Doomed(t) {
      var r := DoomedSickens(t);
    } else {
      StepKeepsLife(s, step);
      HealthyForever(t);
    }
  }

  /** shutdown as it is written can make a connection close twice exactly when it is called on a closed one. */
  lemma ShutdownReopensIffClosed(s: Sys, inLoop: bool)
    requires LifeInv(s) && Enabled(s, Shutdown(inLoop))
    ensures CanCloseTwice(Apply(s, Shutdown(inLoop))) <==> s.conn.state.Disconnected?
  {
    if s.conn.state.Disconnected? {
      CarelessShutdown(s, Shutdown(inLoop));
    } else {
      assert Careful(s, Shutdown(inLoop)) by { hide LifeInv, Doomed; }
      StepKeepsLife(s, Shutdown(inLoop));
      HealthyForever(Apply(s, Shutdown(inLoop)));
    }
  }

  // ---- it happens ----

  lemma {:induction false} ReachesThen(s: Sys, steps: seq<Step>, step: Step)
    requires CarefulRun(s, steps) && Possible(s, steps)
    requires Enabled(Exec(s, steps), step) && Careful(Exec(s, steps), step)
    ensures CarefullyReaches(s, Apply(Exec(s, steps), step))
    decreases |steps|
  {
    if steps == [] {
      ReachesSelf(Apply(s, step));
      ReachesVia(s, step, Apply(s, step));
    } else {
      ReachesThen(Apply(s, steps[0]), steps[1..], step);
      ReachesVia(s, steps[0], Apply(Exec(s, steps), step));
    }
  }

  // One more step that leaves the connection open, or closed already.
  lemma Onward(s: Sys, step: Step) returns (t: Sys)
    requires CarefullyReaches(Start, s) && Enabled(s, step) && Careful(s, step)
    ensures CarefullyReaches(Start, t) && t == Apply(s, step)
  {
    var steps :| CarefulRun(Start, steps) && Possible(Start, steps) && Exec(Start, steps) == s;
    ReachesThen(Start, steps, step);
    t := Apply(s, step);
  }

  lemma OpenHappens() returns (s: Sys)
    ensures CarefullyReaches(Start, s) && s.phase.Running? && s.batch == [] && s.pending == [] && !s.destroyQueued
    ensures s.conn.state.Connected? && s.conn.closes == 0 && s.conn.ups == 1 && s.conn.reading && s.conn.output == []
    ensures s.conn.fins == 0 && !Writing(s.conn)
  {
    ReachesSelf(Start);
    hide CarefullyReaches;
    assert Handlers({}) == [];
    s := Onward(Start, Poll({}));
    s := Onward(s, EndDispatch);
    s := Onward(s, RunOne(WouldBlock));
  }

  // forceClose, and everything up to the close.
  lemma CloseComes(r: Sys) returns (s: Sys)
    requires CarefullyReaches(Start, r) && r.phase.Running? && r.batch == [] && r.pending == []
    requires r.conn.state.Connected? && r.conn.closes == 0 && r.conn.ups == 1
    ensures CarefullyReaches(Start, s) && s.phase.Running? && s.batch == [ForceCloseTask] && s.pending == []
    ensures s.conn == r.conn.(state := Disconnecting)
    ensures Enabled(s, RunOne(WouldBlock)) && Apply(s, RunOne(WouldBlock)).conn == HandleClose(s.conn)
  {
    hide CarefullyReaches;
    assert Handlers({}) == [];
    s := Onward(r, ForceClose);
    s := Onward(s, EndRun);
    s := Onward(s, Poll({}));
    s := Onward(s, EndDispatch);
  }

  /** The failing run: connected, nothing buffered, stopRead, forceClose. */
  lemma SilentCloseHappens() returns (s: Sys)
    ensures CarefullyReaches(Start, s) && Enabled(s, RunOne(WouldBlock))
    ensures CanCloseTwice(Apply(s, RunOne(WouldBlock)))
  {
    s := OpenHappens();
    s := Onward(s, StopRead(true));
    s := CloseComes(s);
    Reached(s);
    ClosesTwiceIffSilent(s, RunOne(WouldBlock));
  }

  /** A connection does get closed, and shutdown can then be called on it. */
  lemma LateShutdownHappens() returns (s: Sys)
    ensures CarefullyReaches(Start, s) && s.conn.state.Disconnected? && Enabled(s, Shutdown(true))
    ensures CanCloseTwice(Apply(s, Shutdown(true)))
  {
    s := OpenHappens();
    s := CloseComes(s);
    Reached(s);
    ClosesTwiceIffSilent(s, RunOne(WouldBlock));
    s := Onward(s, RunOne(WouldBlock));
    Reached(s);
    ShutdownReopensIffClosed(s, true);
  }

  /** shutdown called twice in the loop thread, with nothing buffered: two FINs. */
  lemma TwoShutdownsHappen() returns (s: Sys)
    ensures CarefullyReaches(Start, s) && s.conn.fins == 2 && s.conn.state.Disconnecting?
  {
    s := OpenHappens();
    s := Onward(s, Shutdown(true));
    s := Onward(s, Shutdown(true));
  }

  lemma Reached(s: Sys)
    requires CarefullyReaches(Start, s)
    ensures LifeInv(s)
  {
    var steps :| CarefulRun(Start, steps) && Possible(Start, steps) && Exec(Start, steps) == s;
    StartLives();
    RunKeepsLife(Start, steps);
  }
}
