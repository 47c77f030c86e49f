/** What a connection gets done, over whole runs: buffered bytes reach the wire, no byte is lost on the way, reported
    events are handled, the end of the stream and a forced close end the connection, and startRead and stopRead take
    effect. */
module ConnectionProgress {
  import opened Connection
  import opened ConnectionRuns
  import opened ConnectionLife
  import opened Queues
  import I = Interest

  // ---- buffered bytes reach the wire ----

  function Min(x: nat, y: nat): nat {
    if x < y then x else y
  }

  /** The bytes for which a writable event finds room in the socket. */
  function Room(s: Sys, step: Step): nat
    requires Enabled(s, step)
  {
    if step.Handle? && s.phase.todo[0].OnWrite? && step.asked.Wrote? then step.asked.n else 0
  }

  ghost function AllRoom(s: Sys, steps: seq<Step>): nat
    requires Possible(s, steps)
    decreases |steps|
  {
    if steps == [] then 0 else Room(s, steps[0]) + AllRoom(Apply(s, steps[0]), steps[1..])
  }

  /** The first `k` buffered bytes have been written. */
  ghost predicate Moved(c: Conn, d: Conn, k: nat) {
    k <= |c.output| && d.output == c.output[k..] && d.wire == c.wire + c.output[..k]
  }

  lemma MovedNone(c: Conn)
    ensures Moved(c, c, Min(0, |c.output|))
  {
    assert c.output[0..] == c.output && c.wire + c.output[..0] == c.wire;
  }

  lemma MovedOn(b: Conn, c: Conn, d: Conn, x: nat, y: nat)
    requires Moved(b, c, Min(x, |b.output|)) && Moved(c, d, Min(y, |c.output|))
    ensures Moved(b, d, Min(x + y, |b.output|))
  {
    var j, k := Min(x, |b.output|), Min(y, |c.output|);
    assert b.output[j..][k..] == b.output[j + k..];
    assert b.output[..j] + b.output[j..][..k] == b.output[..j + k];
  }

  lemma WriteMoves(c: Conn, asked: WriteResult)
    requires Life(c) && !c.state.Disconnected?
    ensures Moved(c, HandleWrite(c, asked), if asked.Wrote? then Min(asked.n, |c.output|) else 0)
  {
    MaskOf(c);
    assert c.output[0..] == c.output && c.wire + c.output[..0] == c.wire;
    if Writing(c) && c.fins == 0 && asked.Wrote? { WriteTakes(c, asked.n); }
  }

  lemma LogGrowsInTask(c: Conn, task: Task, asked: WriteResult)
    ensures var d := RunTask(c, task, asked);
      if task.SendTask? then |d.log| == |c.log| + 1 && c.log <= d.log else d.log == c.log
    ensures var d := RunTask(c, task, asked); !task.SendTask? ==> d.wire == c.wire && d.output == c.output
  {
    if task.SendTask? { SendTakesAllOrNothing(c, task.data, asked); }
    hide SendInLoop;
  }

  lemma LogGrowsInStep(s: Sys, step: Step)
    requires Enabled(s, step)
    ensures s.conn.log <= Apply(s, step).conn.log
  {
    hide SendInLoop, RunTask, RunHandler;
    match step
    case Send(data, _, asked) => LogGrowsInTask(s.conn, SendTask(data), asked); SendIsATask(s.conn, data, asked);
    case Handle(read, asked) => ReachedAfterHandler(s.conn, s.phase.todo[0], read, asked);
    case RunOne(asked) => LogGrowsInTask(s.conn, s.batch[0], asked);
    case _ =>
  }

  lemma {:induction false} LogGrowsInRun(s: Sys, steps: seq<Step>)
    requires Possible(s, steps)
    ensures s.conn.log <= Exec(s, steps).conn.log
    decreases |steps|
  {
    if steps != [] {
      LogGrowsInStep(s, steps[0]);
      LogGrowsInRun(Apply(s, steps[0]), steps[1..]);
    }
  }

  lemma StepMoves(s: Sys, step: Step)
    requires LifeInv(s) && Enabled(s, step) && !s.conn.state.Disconnected? && Apply(s, step).conn.log == s.conn.log
    ensures Moved(s.conn, Apply(s, step).conn, Min(Room(s, step), |s.conn.output|))
  {
    Facts(s);
    var c := s.conn;
    assert c.output[0..] == c.output && c.wire + c.output[..0] == c.wire;
    hide SendInLoop, RunTask, LifeInv, Life, HandleWrite;
    match step
    case Send(data, _, asked) => LogGrowsInTask(c, SendTask(data), asked); SendIsATask(c, data, asked);
    case Handle(read, asked) => if s.phase.todo[0].OnWrite? { WriteMoves(c, asked); }
    case RunOne(asked) => LogGrowsInTask(c, s.batch[0], asked);
    case _ =>
  }

  // If the connection is not closed and the log is as before at the end of a run, it was so after the first step.
  lemma StillOpen(s: Sys, steps: seq<Step>)
    requires LifeInv(s) && CarefulRun(s, steps) && Possible(s, steps) && steps != []
    requires !Exec(s, steps).conn.state.Disconnected? && Exec(s, steps).conn.log == s.conn.log
    ensures var u := Apply(s, steps[0]);
      LifeInv(u) && !s.conn.state.Disconnected? && !u.conn.state.Disconnected? && u.conn.log == s.conn.log
  {
    var u := Apply(s, steps[0]);
    StepKeepsLife(s, steps[0]);
    RunKeepsLife(u, steps[1..]);
    LogGrowsInStep(s, steps[0]);
    LogGrowsInRun(u, steps[1..]);
    hide LifeInv, Careful, Apply, Enabled;
  }

  lemma {:induction false} RunMoves(s: Sys, steps: seq<Step>)
    requires LifeInv(s) && CarefulRun(s, steps) && Possible(s, steps)
    requires !Exec(s, steps).conn.state.Disconnected? && Exec(s, steps).conn.log == s.conn.log
    ensures Moved(s.conn, Exec(s, steps).conn, Min(AllRoom(s, steps), |s.conn.output|))
    decreases |steps|
  {
    hide LifeInv, Careful, Apply, Room, Enabled, Moved, Min;
    if steps == [] {
      MovedNone(s.conn);
    } else {
      var u := Apply(s, steps[0]);
      StillOpen(s, steps);
      StepMoves(s, steps[0]);
      RunMoves(u, steps[1..]);
      MovedOn(s.conn, u.conn, Exec(s, steps).conn, Room(s, steps[0]), AllRoom(u, steps[1..]));
    }
  }

  /** Over every careful run that ends with the connection open and in which no further message reaches sendInLoop, the
      writable events move from the buffer to the wire exactly the bytes for which the socket had room. Once that is
      all of them the buffer is empty, the wire is every kept message, and the channel no longer watches. */
  lemma BufferDrains(before: seq<Step>, after: seq<Step>)
    requires CarefulRun(Start, before) && Possible(Start, before) && CarefulRun(Exec(Start, before), after)
    ensures Possible(Exec(Start, before), after)
    ensures var s := Exec(Start, before); var c, d, room := s.conn, Exec(s, after).conn, AllRoom(s, after);
      Open(d) && d.log == c.log ==>
        && Moved(c, d, Min(room, |c.output|))
        && (room >= |c.output| ==> d.output == [] && d.wire == KeptBytes(c.log) && !Writing(d))
  {
    StartLives();
    RunKeepsLife(Start, before);
    var s := Exec(Start, before);
    RunKeepsLife(s, after);
    ByteStreamPreserved(Start, before);
    ByteStreamPreserved(s, after);
    Facts(Exec(s, after));
    hide LifeInv, KeptBytes, AllRoom;
    var d := Exec(s, after).conn;
    if Open(d) && d.log == s.conn.log {
      RunMoves(s, after);
      assert d.wire + [] == d.wire;
    }
  }

  // ---- no byte is lost while the connection is up ----

  /** No write fails with EPIPE or ECONNRESET. */
  predicate Unbroken(step: Step) {
    match step
    case Send(_, _, asked) => !asked.Broken?
    case Handle(_, asked) => !asked.Broken?
    case RunOne(asked) => !asked.Broken?
    case _ => true
  }

  ghost predicate AllKept(log: seq<Message>) {
    forall m <- log :: m.fate.Kept?
  }

  /** Neither reported down nor half-closed. */
  predicate Up(c: Conn) {
    c.downs == 0 && c.fins == 0
  }

  ghost predicate KeptWhileUp(c: Conn) {
    Up(c) ==> !c.state.Disconnected? && AllKept(c.log)
  }

  lemma TaskKeepsAll(c: Conn, task: Task, asked: WriteResult)
    requires KeptWhileUp(c) && !asked.Broken?
    ensures KeptWhileUp(RunTask(c, task, asked))
  {
    if task.SendTask? {
      SendTakesAllOrNothing(c, task.data, asked);
      SendFate(c, task.data, asked);
      SendLeaves(c, task.data, asked);
      hide SendInLoop;
    }
  }

  lemma SendLeaves(c: Conn, data: seq<Byte>, asked: WriteResult)
    ensures var d := SendInLoop(c, data, asked); d.state == c.state && d.fins == c.fins && d.downs == c.downs
  {
  }

  lemma HandlerKeepsAll(c: Conn, h: Handler, read: ReadResult, asked: WriteResult)
    requires KeptWhileUp(c)
    ensures KeptWhileUp(RunHandler(c, h, read, asked))
  {
  }

  lemma StepKeepsAll(s: Sys, step: Step)
    requires KeptWhileUp(s.conn) && Enabled(s, step) && Unbroken(step)
    ensures KeptWhileUp(Apply(s, step).conn)
  {
    hide SendInLoop, RunTask, RunHandler, AllKept;
    match step
    case Send(data, _, asked) => TaskKeepsAll(s.conn, SendTask(data), asked); SendIsATask(s.conn, data, asked);
    case Handle(read, asked) => HandlerKeepsAll(s.conn, s.phase.todo[0], read, asked);
    case RunOne(asked) => TaskKeepsAll(s.conn, s.batch[0], asked);
    case _ =>
  }

  lemma {:induction false} RunKeepsAll(s: Sys, steps: seq<Step>)
    requires KeptWhileUp(s.conn) && Possible(s, steps) && forall step <- steps :: Unbroken(step)
    ensures KeptWhileUp(Exec(s, steps).conn)
    decreases |steps|
  {
    if steps != [] {
      assert steps[0] in steps;
      StepKeepsAll(s, steps[0]);
      hide KeptWhileUp, Apply, Enabled;
      RunKeepsAll(Apply(s, steps[0]), steps[1..]);
    }
  }

  function Bytes(messages: seq<seq<Byte>>): seq<Byte> {
    if messages == [] then [] else messages[0] + Bytes(messages[1..])
  }

  lemma {:induction false} BytesConcat(a: seq<seq<Byte>>, b: seq<seq<Byte>>)
    ensures Bytes(a + b) == Bytes(a) + Bytes(b)
    decreases |a|
  {
    if a == [] {
      assert a + b == b;
    } else {
      assert (a + b)[1..] == a[1..] + b;
      BytesConcat(a[1..], b);
    }
  }

  lemma {:induction false} KeptAreAll(log: seq<Message>)
    requires AllKept(log)
    ensures KeptBytes(log) == Bytes(Reached(log))
  {
    if log != [] {
      var init, last := log[..|log| - 1], log[|log| - 1];
      KeptAreAll(init);
      assert Reached(log) == Reached(init) + [last.data];
      BytesConcat(Reached(init), [last.data]);
      assert Bytes([last.data]) == last.data;
    }
  }

  /** As long as the connection has neither been reported down nor half-closed, and no write has failed with EPIPE or
      ECONNRESET, every byte that one thread has passed to send is, in order, on the wire, in the output buffer, or in a
      functor still queued. */
  lemma NothingIsLost(steps: seq<Step>, inLoop: bool)
    requires Possible(Start, steps) && forall step <- steps :: ByOneThread(step, inLoop) && Unbroken(step)
    ensures var s := Exec(Start, steps);
      Up(s.conn) ==>
        Bytes(s.calls) == s.conn.wire + s.conn.output + Bytes(Queued(s.batch)) + Bytes(Queued(s.pending))
  {
    RunKeepsAll(Start, steps);
    CallOrderKept(Start, steps, inLoop);
    ByteStreamPreserved(Start, steps);
    var s := Exec(Start, steps);
    if Up(s.conn) {
      KeptAreAll(s.conn.log);
      BytesConcat(Reached(s.conn.log) + Queued(s.batch), Queued(s.pending));
      BytesConcat(Reached(s.conn.log), Queued(s.batch));
    }
  }

  // ---- reported events are handled ----

  /** The handlers that have been called, in order. */
  ghost function Ran(s: Sys, steps: seq<Step>): seq<Handler>
    requires Possible(s, steps)
    decreases |steps|
  {
    if steps == [] then []
    else (if steps[0].Handle? then [s.phase.todo[0]] else []) + Ran(Apply(s, steps[0]), steps[1..])
  }

  lemma {:induction false} HandlersInTurn(s: Sys, steps: seq<Step>)
    requires Possible(s, steps) && s.phase.Dispatching? && EndDispatch !in steps
    ensures Exec(s, steps).phase.Dispatching?
    ensures s.phase.todo == Ran(s, steps) + Exec(s, steps).phase.todo
    decreases |steps|
  {
    if steps != [] {
      assert steps[0] in steps && forall step <- steps[1..] :: step in steps;
      TodoAfter(s, steps[0]);
      hide Apply;
      HandlersInTurn(Apply(s, steps[0]), steps[1..]);
    }
  }

  lemma TodoAfter(s: Sys, step: Step)
    requires s.phase.Dispatching? && Enabled(s, step) && !step.EndDispatch?
    ensures Apply(s, step).phase == if step.Handle? then Dispatching(s.phase.todo[1..]) else s.phase
    ensures step.Handle? ==> s.phase.todo == [s.phase.todo[0]] + s.phase.todo[1..]
  {
    hide RunHandler, SendInLoop;
  }

  function Place(h: Handler): nat {
    match h
    case OnClose => 0
    case OnError => 1
    case OnRead => 2
    case OnWrite => 3
  }

  /** When a channel has been handled, its handlers have been called, each at most once, the close handler first, then
      error, read and write: close exactly for a hang-up without IN, error for ERR or NVAL, read for IN, PRI or RDHUP,
      write for OUT. */
  lemma ReportedIsHandled(s: Sys, revents: set<I.Event>, during: seq<Step>)
    requires Enabled(s, Poll(revents)) && Possible(Apply(s, Poll(revents)), during) && EndDispatch !in during
    requires Enabled(Exec(Apply(s, Poll(revents)), during), EndDispatch)
    ensures var ran := Ran(Apply(s, Poll(revents)), during);
      && (OnClose in ran <==> I.Hup in revents && I.In !in revents)
      && (OnError in ran <==> I.Err in revents || I.Nval in revents)
      && (OnRead in ran <==> I.In in revents || I.Pri in revents || I.RdHup in revents)
      && (OnWrite in ran <==> I.Out in revents)
      && (forall i, j | 0 <= i < j < |ran| :: Place(ran[i]) < Place(ran[j]))
  {
    var t := Apply(s, Poll(revents));
    HandlersInTurn(t, during);
    assert Ran(t, during) == Handlers(revents);
    HandlersFor(revents);
    hide Possible, Exec, Ran, Handlers, Apply, Enabled;
  }

  lemma HandlersFor(revents: set<I.Event>)
    ensures var ran := Handlers(revents);
      && (OnClose in ran <==> I.Hup in revents && I.In !in revents)
      && (OnError in ran <==> I.Err in revents || I.Nval in revents)
      && (OnRead in ran <==> I.In in revents || I.Pri in revents || I.RdHup in revents)
      && (OnWrite in ran <==> I.Out in revents)
      && (forall i, j | 0 <= i < j < |ran| :: Place(ran[i]) < Place(ran[j]))
  {
    var error, read := I.Err in revents || I.Nval in revents, I.In in revents || I.Pri in revents || I.RdHup in revents;
    Meets(revents, {I.Err, I.Nval});
    Meets(revents, {I.In, I.Pri, I.RdHup});
    assert revents * {I.Err, I.Nval} != {} <==> error;
    assert revents * {I.In, I.Pri, I.RdHup} != {} <==> read;
    InPlace(I.Hup in revents && I.In !in revents, error, read, I.Out in revents);
  }

  lemma Meets(a: set<I.Event>, b: set<I.Event>)
    ensures a * b != {} <==> exists e :: e in b && e in a
  {
    if e :| e in b && e in a { assert e in a * b; }
  }

  lemma InPlace(close: bool, error: bool, read: bool, write: bool)
    ensures var ran := (if close then [OnClose] else []) + (if error then [OnError] else [])
                       + (if read then [OnRead] else []) + (if write then [OnWrite] else []);
      && (OnClose in ran <==> close) && (OnError in ran <==> error)
      && (OnRead in ran <==> read) && (OnWrite in ran <==> write)
      && (forall i, j | 0 <= i < j < |ran| :: Place(ran[i]) < Place(ran[j]))
  {
  }

  // ---- what ends a connection ----

  /** A read handler that is called finds the end of the stream. */
  ghost predicate ReadsEnd(s: Sys, steps: seq<Step>)
    requires Possible(s, steps)
    decreases |steps|
  {
    steps != [] &&
    ((steps[0].Handle? && s.phase.todo[0].OnRead? && steps[0].read.EndOfStream?)
     || ReadsEnd(Apply(s, steps[0]), steps[1..]))
  }

  lemma StepCloses(s: Sys, step: Step)
    requires LifeInv(s) && Open(s.conn) && s.phase.Dispatching? && Enabled(s, step) && Careful(s, step)
    requires !step.EndDispatch?
    ensures LifeInv(Apply(s, step)) && Apply(s, step).phase.Dispatching?
    ensures Apply(s, step).conn.state.Disconnected? <==>
      step.Handle? && (s.phase.todo[0].OnClose? || (s.phase.todo[0].OnRead? && step.read.EndOfStream?))
    ensures Open(Apply(s, step).conn) || Apply(s, step).conn.state.Disconnected?
  {
    Facts(s);
    StepKeepsLife(s, step);
    hide LifeInv, Life, Careful, RunHandler, SendInLoop, StartReadInLoop, StopReadInLoop, ShutdownInLoop;
    match step
    case Handle(read, asked) => HandlerKeepsAlive(s.conn, s.phase.todo[0], read, asked);
    case Poll(_) =>
    case QueueDestroy =>
    case RunOne(_) =>
    case EndRun =>
    case _ => UserStepOpen(s, step);
  }

  lemma {:induction false} ClosesIff(s: Sys, steps: seq<Step>)
    requires LifeInv(s) && Open(s.conn) && s.phase.Dispatching? && CarefulRun(s, steps) && EndDispatch !in steps
    ensures Possible(s, steps)
    ensures Exec(s, steps).conn.state.Disconnected? <==> OnClose in Ran(s, steps) || ReadsEnd(s, steps)
    decreases |steps|
  {
    CarefulIsPossible(s, steps);
    if steps != [] {
      var u := Apply(s, steps[0]);
      assert steps[0] in steps && forall step <- steps[1..] :: step in steps;
      StepCloses(s, steps[0]);
      RunKeepsLife(u, steps[1..]);
      hide LifeInv, Careful, Apply, Enabled;
      if Open(u.conn) { ClosesIff(u, steps[1..]); }
    }
  }

  // With nothing but ends of the stream to read, every read handler finds one.
  lemma {:induction false} OnlyEnds(s: Sys, steps: seq<Step>)
    requires Possible(s, steps) && forall step <- steps :: step.Handle? ==> step.read.EndOfStream?
    ensures ReadsEnd(s, steps) <==> OnRead in Ran(s, steps)
    decreases |steps|
  {
    if steps != [] {
      assert steps[0] in steps;
      OnlyEnds(Apply(s, steps[0]), steps[1..]);
    }
  }

  /** While one channel is handled, whatever else is called, an open connection is closed exactly by a hang-up without
      IN or by a read that finds the end of the stream; and when IN is reported, there is a read. */
  lemma DispatchClosesIff(before: seq<Step>, revents: set<I.Event>, during: seq<Step>)
    requires CarefulRun(Start, before) && Possible(Start, before) && Open(Exec(Start, before).conn)
    requires Enabled(Exec(Start, before), Poll(revents)) && EndDispatch !in during
    requires CarefulRun(Apply(Exec(Start, before), Poll(revents)), during)
    ensures Possible(Apply(Exec(Start, before), Poll(revents)), during)
    ensures var t := Apply(Exec(Start, before), Poll(revents)); var u := Exec(t, during);
      Enabled(u, EndDispatch) ==>
        && (u.conn.state.Disconnected? <==> (I.Hup in revents && I.In !in revents) || ReadsEnd(t, during))
        && (I.In in revents && (forall step <- during :: step.Handle? ==> step.read.EndOfStream?) ==>
              u.conn.state.Disconnected? && u.conn.closes == 1)
  {
    StartLives();
    RunKeepsLife(Start, before);
    var s := Exec(Start, before);
    var t := Apply(s, Poll(revents));
    PollKeepsInv(s, Poll(revents));
    ClosesIff(t, during);
    RunKeepsLife(t, during);
    Facts(Exec(t, during));
    hide LifeInv, Careful, Life, Ran, ReadsEnd, Possible, Exec, CarefulRun;
    if Enabled(Exec(t, during), EndDispatch) {
      ReportedIsHandled(s, revents, during);
      if forall step <- during :: step.Handle? ==> step.read.EndOfStream? { OnlyEnds(t, during); }
    }
  }

  // Until the connection is closed its forceCloseInLoop is queued.
  lemma {:induction false} ForceCloseStays(s: Sys, steps: seq<Step>)
    requires LifeInv(s) && CarefulRun(s, steps) && (Open(s.conn) ==> Waiting(s, ForceCloseTask) > 0)
    requires !s.conn.state.Connecting?
    ensures Possible(s, steps)
    ensures !Exec(s, steps).conn.state.Disconnected? ==> Waiting(Exec(s, steps), ForceCloseTask) > 0
    decreases |steps|
  {
    CarefulIsPossible(s, steps);
    if steps != [] {
      StepKeepsLife(s, steps[0]);
      if Open(s.conn) { ForceCloseWaits(s, steps[0]); }
      hide LifeInv, Careful, Apply, Enabled, Waiting;
      ForceCloseStays(Apply(s, steps[0]), steps[1..]);
    }
  }

  lemma ForceCloseWaits(s: Sys, step: Step)
    requires LifeInv(s) && Open(s.conn) && Enabled(s, step) && Careful(s, step) && Waiting(s, ForceCloseTask) > 0
    ensures Open(Apply(s, step).conn) ==> Waiting(Apply(s, step), ForceCloseTask) > 0
  {
    Facts(s);
    var f := ForceCloseTask;
    if step.RunOne? {
      TimesHead(s.batch, f);
      if s.batch[0] == f { CloseShuts(s.conn); }
    }
    TimesAppend([], f, f);
    forall task: Task ensures Times(s.pending + [task], f) >= Times(s.pending, f) { TimesAppend(s.pending, task, f); }
    hide LifeInv, Life, Careful, RunHandler, RunTask, SendInLoop, StartReadInLoop, StopReadInLoop, Times;
  }

  /** forceClose on an open connection: whatever happens then, the connection has been closed, once, by the time its
      functor is no longer queued. */
  lemma ForceCloseCloses(before: seq<Step>, after: seq<Step>)
    requires CarefulRun(Start, before) && Possible(Start, before) && Open(Exec(Start, before).conn)
    requires Enabled(Exec(Start, before), ForceClose)
    requires CarefulRun(Apply(Exec(Start, before), ForceClose), after)
    ensures Possible(Apply(Exec(Start, before), ForceClose), after)
    ensures var u := Exec(Apply(Exec(Start, before), ForceClose), after);
      Waiting(u, ForceCloseTask) == 0 ==> u.conn.state.Disconnected? && u.conn.closes == 1 && u.conn.downs == 1
  {
    StartLives();
    RunKeepsLife(Start, before);
    var s := Exec(Start, before);
    var t := Apply(s, ForceClose);
    UserStepOpen(s, ForceClose);
    TimesAppend(s.pending, ForceCloseTask, ForceCloseTask);
    ForceCloseStays(t, after);
    RunKeepsLife(t, after);
    Facts(Exec(t, after));
    hide LifeInv, Doomed, OneCloser, NoCloser, Waiting;
  }

  lemma {:induction false} DestroyStaysQueued(s: Sys, steps: seq<Step>)
    requires Possible(s, steps) && s.destroyQueued
    ensures Exec(s, steps).destroyQueued
    decreases |steps|
  {
    if steps != [] { DestroyStaysQueued(Apply(s, steps[0]), steps[1..]); }
  }

  /** Once the close callback's connectDestroyed is queued, and then nothing is queued any more, it has run: the channel
      is unknown to the poller. */
  lemma ClosedIsDestroyed(before: seq<Step>, after: seq<Step>)
    requires CarefulRun(Start, before) && Possible(Start, before) && Enabled(Exec(Start, before), QueueDestroy)
    requires CarefulRun(Apply(Exec(Start, before), QueueDestroy), after)
    ensures Possible(Apply(Exec(Start, before), QueueDestroy), after)
    ensures var u := Exec(Apply(Exec(Start, before), QueueDestroy), after);
      u.batch == [] && u.pending == [] ==> u.conn.destroyed == 1 && u.conn.channel == I.Fresh
  {
    hide LifeInv, Exec, Possible, CarefulRun, Enabled;
    StartLives();
    RunKeepsLife(Start, before);
    var s := Exec(Start, before);
    QueueDestroyKeepsInv(s);
    RunKeepsLife(Apply(s, QueueDestroy), after);
    DestroyStaysQueued(Apply(s, QueueDestroy), after);
    var u := Exec(Apply(s, QueueDestroy), after);
    if u.batch == [] && u.pending == [] { DestroyedWhenQuiet(u); }
  }

  lemma DestroyedWhenQuiet(s: Sys)
    requires LifeInv(s) && s.destroyQueued && s.batch == [] && s.pending == []
    ensures s.conn.destroyed == 1 && s.conn.channel == I.Fresh
  {
    Healthy(s);
    TimesAppend([], Destroy, Destroy);
    hide Life, Doomed, OneCloser, NoCloser;
  }

  lemma StepTakesNothing(s: Sys, step: Step)
    requires Enabled(s, step) && !s.conn.state.Connected?
    ensures Apply(s, step).calls == s.calls
  {
    hide SendInLoop, RunTask, RunHandler;
  }

  lemma {:induction false} NothingTaken(s: Sys, steps: seq<Step>)
    requires LifeInv(s) && CarefulRun(s, steps) && Rank(s.conn.state) >= 2
    ensures Possible(s, steps) && Exec(s, steps).calls == s.calls
    decreases |steps|
  {
    CarefulIsPossible(s, steps);
    if steps != [] {
      StepKeepsLife(s, steps[0]);
      StepTakesNothing(s, steps[0]);
      hide LifeInv, Careful, Apply, Enabled;
      NothingTaken(Apply(s, steps[0]), steps[1..]);
    }
  }

  /** Once shutdown or forceClose has been called on an open connection, from whatever thread, send takes nothing. */
  lemma SendsStop(before: seq<Step>, call: Step, after: seq<Step>)
    requires CarefulRun(Start, before) && Possible(Start, before) && Open(Exec(Start, before).conn)
    requires (call.Shutdown? || call.ForceClose?) && Enabled(Exec(Start, before), call)
    requires CarefulRun(Apply(Exec(Start, before), call), after)
    ensures Possible(Apply(Exec(Start, before), call), after)
    ensures Exec(Apply(Exec(Start, before), call), after).calls == Exec(Start, before).calls
  {
    StartLives();
    RunKeepsLife(Start, before);
    var s := Exec(Start, before);
    UserStepOpen(s, call);
    NothingTaken(Apply(s, call), after);
    hide LifeInv, Doomed;
  }

  // ---- startRead and stopRead take effect ----

  predicate AboutReading(task: Task) {
    task.StartReadTask? || task.StopReadTask?
  }

  /** Whether the connection reads once these functors have run. */
  function ReadingAfter(tasks: seq<Task>, reading: bool): bool {
    if tasks == [] then reading
    else ReadingAfter(tasks[1..], if AboutReading(tasks[0]) then tasks[0].StartReadTask? else reading)
  }

  /** What the last of the calls of startRead and stopRead asked for. */
  function Asked(steps: seq<Step>, reading: bool): bool {
    if steps == [] then reading
    else Asked(steps[1..], if steps[0].StartRead? || steps[0].StopRead? then steps[0].StartRead? else reading)
  }

  function Promised(s: Sys): bool {
    ReadingAfter(s.pending, ReadingAfter(s.batch, s.conn.reading))
  }

  ghost predicate NoneAboutReading(tasks: seq<Task>) {
    forall t <- tasks :: !AboutReading(t)
  }

  lemma {:induction false} ReadingAfterMore(tasks: seq<Task>, task: Task, reading: bool)
    ensures ReadingAfter(tasks + [task], reading) ==
      if AboutReading(task) then task.StartReadTask? else ReadingAfter(tasks, reading)
    decreases |tasks|
  {
    if tasks == [] {
      assert [] + [task] == [task] && [task][1..] == [];
    } else {
      assert (tasks + [task])[0] == tasks[0] && (tasks + [task])[1..] == tasks[1..] + [task];
      ReadingAfterMore(tasks[1..], task, if AboutReading(tasks[0]) then tasks[0].StartReadTask? else reading);
    }
  }

  lemma {:induction false} NobodyAsks(tasks: seq<Task>, reading: bool)
    requires NoneAboutReading(tasks)
    ensures ReadingAfter(tasks, reading) == reading
    decreases |tasks|
  {
    if tasks != [] {
      assert tasks[0] in tasks && forall t <- tasks[1..] :: t in tasks;
      NobodyAsks(tasks[1..], reading);
    }
  }

  lemma TaskReads(c: Conn, task: Task, asked: WriteResult)
    ensures RunTask(c, task, asked).reading == if AboutReading(task) then task.StartReadTask? else c.reading
  {
  }

  lemma HandlerReads(c: Conn, h: Handler, read: ReadResult, asked: WriteResult)
    ensures RunHandler(c, h, read, asked).reading == c.reading
  {
  }

  lemma StepPromises(s: Sys, step: Step, inLoop: bool)
    requires Enabled(s, step) && ByOneThread(step, inLoop) && (s.phase.Running? || s.batch == [])
    requires inLoop ==> NoneAboutReading(s.batch) && NoneAboutReading(s.pending)
    ensures var t := Apply(s, step);
      && Promised(t) == Asked([step], Promised(s)) && (t.phase.Running? || t.batch == [])
      && (inLoop ==> NoneAboutReading(t.batch) && NoneAboutReading(t.pending))
  {
    assert [step][1..] == [];
    var reading := ReadingAfter(s.batch, s.conn.reading);
    hide RunTask, RunHandler, SendInLoop, StartReadInLoop, StopReadInLoop;
    match step
    case Send(data, l, asked) =>
      TaskReads(s.conn, SendTask(data), asked);
      SendIsATask(s.conn, data, asked);
      ReadingAfterMore(s.pending, SendTask(data), reading);
    case Shutdown(_) => ReadingAfterMore(s.pending, ShutdownTask, reading);
    case ForceClose => ReadingAfterMore(s.pending, ForceCloseTask, reading);
    case QueueDestroy => ReadingAfterMore(s.pending, Destroy, reading);
    case StartRead(l) => SwitchPromises(s, step, inLoop);
    case StopRead(l) => SwitchPromises(s, step, inLoop);
    case Handle(read, asked) => HandlerReads(s.conn, s.phase.todo[0], read, asked);
    case RunOne(asked) => TaskReads(s.conn, s.batch[0], asked);
    case _ =>
  }

  lemma SwitchPromises(s: Sys, step: Step, inLoop: bool)
    requires Enabled(s, step) && ByOneThread(step, inLoop) && (step.StartRead? || step.StopRead?)
    requires inLoop ==> NoneAboutReading(s.batch) && NoneAboutReading(s.pending)
    ensures Promised(Apply(s, step)) == step.StartRead?
  {
    var task, c := if step.StartRead? then StartReadTask else StopReadTask, Apply(s, step).conn;
    ReadingAfterMore(s.pending, task, ReadingAfter(s.batch, s.conn.reading));
    if inLoop {
      NobodyAsks(s.batch, c.reading);
      NobodyAsks(s.pending, c.reading);
    }
  }

  lemma AskedInTurn(step: Step, steps: seq<Step>, reading: bool)
    ensures Asked([step] + steps, reading) == Asked(steps, Asked([step], reading))
  {
    assert ([step] + steps)[1..] == steps && [step][1..] == [];
  }

  lemma {:induction false} RunPromises(s: Sys, steps: seq<Step>, inLoop: bool)
    requires Possible(s, steps) && forall step <- steps :: ByOneThread(step, inLoop)
    requires s.phase.Running? || s.batch == []
    requires inLoop ==> NoneAboutReading(s.batch) && NoneAboutReading(s.pending)
    ensures Promised(Exec(s, steps)) == Asked(steps, Promised(s))
    decreases |steps|
  {
    if steps != [] {
      assert steps[0] in steps && steps == [steps[0]] + steps[1..];
      StepPromises(s, steps[0], inLoop);
      AskedInTurn(steps[0], steps[1..], Promised(s));
      hide Apply, Enabled, Promised, Asked, NoneAboutReading;
      RunPromises(Apply(s, steps[0]), steps[1..], inLoop);
    }
  }

  /** With one calling thread, in the loop or not: once no functor is queued, an open connection is reported for input
      exactly if the last call of startRead and stopRead, if any, was startRead. */
  lemma LastReadCallCounts(steps: seq<Step>, inLoop: bool)
    requires CarefulRun(Start, steps) && forall step <- steps :: ByOneThread(step, inLoop)
    ensures Possible(Start, steps)
    ensures var s := Exec(Start, steps);
      Open(s.conn) && s.batch == [] && s.pending == [] ==>
        (s.conn.reading <==> Asked(steps, true))
        && (Reportable(s.conn.channel, {I.In}) <==> Asked(steps, true))
  {
    LifeCycle(steps);
    assert Promised(Start) by { assert [Establish][1..] == []; }
    RunPromises(Start, steps, inLoop);
    hide LifeInv;
  }
}
