/** A connector that is wanted is never forgotten: over every run there is exactly one thing that goes on for it. */
module ConnectorProgress {
  import opened Connecting
  import opened ConnectorRuns

  /** What may be going on: a queued start, a retry to come, an attempt under way, a connection that is open. */
  function Ways(s: Sys): nat {
    (if StartTask in s.batch || StartTask in s.pending then 1 else 0) + |s.c.timers|
    + (if s.c.state.Connecting? then 1 else 0) + (if s.up.Nobody? then 0 else 1)
  }

  /** connect(2) does not fail for good, and a client that still wants its connection starts again when it closes. */
  predicate Persistent(s: Sys, step: Step)
    requires Can(s, step)
  {
    match step
    case Start(_, _, errno) => errno in GOING + PASSING
    case FireTimer(_, _, errno) => errno in GOING + PASSING
    case CloseUp(again, _, errno) => errno in GOING + PASSING && (s.c.connect ==> again)
    case RunOne(again, _, errno) =>
      errno in GOING + PASSING && (s.c.connect && !s.up.Nobody? && s.batch[0] == CloseTask(s.up.fd) ==> again)
    case _ => true
  }

  ghost predicate PersistentRun(s: Sys, steps: seq<Step>, r: Rules)
    requires Possible(s, steps, r)
    decreases |steps|
  {
    steps != [] ==> Persistent(s, steps[0]) && PersistentRun(Apply(s, steps[0]), steps[1..], r)
  }

  ghost predicate Pursued(s: Sys) {
    s.c.connect ==> Ways(s) > 0
  }

  lemma OneWay(s: Sys, r: Rules)
    requires Inv(s, r)
    ensures Ways(s) <= 1
  {
    StartsQueued(s.batch);
    StartsQueued(s.pending);
    hide Conserved, BacksOff, Timed, ResetsFirst, ClosesOf;
  }

  lemma StartsQueued(tasks: seq<Task>)
    ensures StartTask in tasks ==> multiset(tasks)[StartTask] > 0
  {
  }

  // An attempt that does not fail for good goes on, or will be made again if it is wanted.
  lemma AttemptGoesOn(c: Connector, fd: Fd, errno: Errno, now: nat)
    requires c.connect && errno in GOING + PASSING
    ensures var d := StartInLoop(c, fd, errno, now); d.state.Connecting? || d.timers != []
  {
  }

  lemma StepPursues(s: Sys, step: Step, r: Rules)
    requires Inv(s, r) && Enabled(s, step, r) && Pursued(s) && Persistent(s, step)
    ensures Pursued(Apply(s, step))
  {
    hide Conserved, BacksOff, Timed, Queued;
    match step
    case Start(_, fd, errno) => AttemptGoesOn(s.c.(connect := true), fd, errno, s.clock);
    case FireTimer(i, fd, errno) =>
      var c := s.c.(timers := s.c.timers[..i] + s.c.timers[i + 1..]);
      if c.connect { AttemptGoesOn(c, fd, errno, s.clock); }
    case CloseUp(again, fd, errno) => if again { RestartGoesOn(s.c, fd, errno, s.clock); }
    case RunOne(again, fd, errno) => FunctorPursues(s, step, r);
    case _ =>
  }

  lemma RestartGoesOn(c: Connector, fd: Fd, errno: Errno, now: nat)
    requires errno in GOING + PASSING
    ensures var d := Restart(c, fd, errno, now); d.state.Connecting? || d.timers != []
  {
  }

  lemma FunctorPursues(s: Sys, step: Step, r: Rules)
    requires Inv(s, r) && Enabled(s, step, r) && Pursued(s) && Persistent(s, step) && step.RunOne?
    ensures Pursued(Apply(s, step))
  {
    hide Conserved, BacksOff, Timed, Queued;
    assert s.batch == [s.batch[0]] + s.batch[1..];
    match s.batch[0]
    case StartTask => if s.c.connect { AttemptGoesOn(s.c, step.fd, step.errno, s.clock); }
    case CloseTask(_) => RestartGoesOn(s.c, step.fd, step.errno, s.clock);
    case _ =>
  }

  lemma {:induction false} RunPursues(s: Sys, steps: seq<Step>, r: Rules)
    requires Inv(s, r) && Short(r) && Possible(s, steps, r) && Pursued(s) && PersistentRun(s, steps, r)
    ensures Pursued(Exec(s, steps, r))
    decreases |steps|
  {
    if steps != [] {
      StepKeepsInv(s, steps[0], r);
      StepPursues(s, steps[0], r);
      hide Inv, Pursued, Apply, Enabled, Persistent;
      RunPursues(Apply(s, steps[0]), steps[1..], r);
    }
  }

  /** Over every run with loop iterations as short as they must be: at most one thing goes on for the connector; and as
      long as connect(2) has not failed for good and a client that still wants its connection starts again when it
      closes, a connector that is wanted has exactly one, so it does go on. */
  lemma WantedIsPursued(steps: seq<Step>, r: Rules)
    requires Short(r) && Possible(Begin, steps, r)
    ensures Ways(Exec(Begin, steps, r)) <= 1
    ensures PersistentRun(Begin, steps, r) && Exec(Begin, steps, r).c.connect ==> Ways(Exec(Begin, steps, r)) == 1
  {
    hide Inv, Ways, Possible, Exec, PersistentRun;
    NothingWanted(Begin, r);
    BeginHoldsInv(Begin, r);
    RunKeepsInv(Begin, steps, r);
    OneWay(Exec(Begin, steps, r), r);
    if PersistentRun(Begin, steps, r) { RunPursues(Begin, steps, r); }
  }

  lemma NothingWanted(s: Sys, r: Rules)
    requires s == Begin
    ensures Pursued(s)
  {
  }

  // ---- the end of a delivered connection ----

  /** The close of the delivered connection has nothing left of it in the client; with `again` a new attempt is made at
      once, with the first delay for its retries. */
  lemma CloseIsNoticed(s: Sys, again: bool, fd: Fd, errno: Errno)
    requires Can(s, CloseUp(again, fd, errno))
    ensures var t := Apply(s, CloseUp(again, fd, errno));
      && t.up.Nobody? && t.pending == s.pending && t.c.delivered == s.c.delivered
      && t.c.created == (if again then s.c.created + [fd] else s.c.created)
      && (again ==> t.c.connect && (errno in PASSING ==> t.c.timers == s.c.timers + [s.clock + 500]))
  {
  }

  /** The connection handed over on `fd` is not open any more, or its close is queued. */
  ghost predicate WillClose(s: Sys, fd: Fd) {
    fd in s.c.delivered &&
    (!s.up.Nobody? && s.up.fd == fd ==> CloseTask(fd) in s.batch || CloseTask(fd) in s.pending)
  }

  lemma NeverAgain(s: Sys, fd: Fd, r: Rules)
    requires Inv(s, r) && fd in s.c.delivered
    ensures s.c.slot != Live(fd)
  {
    assert Places(s.c, fd) <= 1;
  }

  lemma StepWillClose(s: Sys, step: Step, fd: Fd, r: Rules)
    requires Inv(s, r) && Enabled(s, step, r) && WillClose(s, fd)
    ensures WillClose(Apply(s, step), fd)
  {
    NeverAgain(s, fd, r);
    hide Inv, StartInLoop, Restart, HandleError, HandleWrite, RunHandler, RunTask;
    match step
    case Start(_, x, errno) => AttemptHandsNothing(s.c.(connect := true), x, errno, s.clock);
    case FireTimer(i, x, errno) =>
      AttemptHandsNothing(s.c.(timers := s.c.timers[..i] + s.c.timers[i + 1..]), x, errno, s.clock);
    case CloseUp(_, x, errno) => AttemptHandsNothing(s.c, x, errno, s.clock);
    case HandleNext(outcome) => HandlerHandsAtMost(s, outcome, fd);
    case RunOne(_, _, _) => FunctorWillClose(s, step, fd);
    case _ =>
  }

  lemma AttemptHandsNothing(c: Connector, fd: Fd, errno: Errno, now: nat)
    ensures StartInLoop(c, fd, errno, now).delivered == c.delivered
    ensures Restart(c, fd, errno, now).delivered == c.delivered
    ensures StopInLoop(c, now).delivered == c.delivered && HandleError(c, now).delivered == c.delivered
  {
  }

  lemma HandlerHandsAtMost(s: Sys, outcome: Outcome, fd: Fd)
    requires Can(s, HandleNext(outcome)) && s.c.slot != Live(fd) && WillClose(s, fd)
    ensures WillClose(Apply(s, HandleNext(outcome)), fd)
  {
    var h, t := s.phase.todo[0], s.(phase := Dispatching(s.phase.todo[1..]));
    if h.OnError? {
      AttemptHandsNothing(s.c, 0, OK, s.clock);
      hide HandleError;
    } else {
      WriteHandsAtMost(s.c, outcome, s.clock);
      hide HandleWrite;
    }
  }

  lemma WriteHandsAtMost(c: Connector, outcome: Outcome, now: nat)
    ensures var d := HandleWrite(c, outcome, now);
      d.delivered == c.delivered || (c.slot.Live? && d.delivered == c.delivered + [c.slot.fd])
  {
  }

  lemma FunctorWillClose(s: Sys, step: Step, fd: Fd)
    requires Can(s, step) && step.RunOne? && WillClose(s, fd)
    ensures WillClose(Apply(s, step), fd)
  {
    assert s.batch == [s.batch[0]] + s.batch[1..];
    AttemptHandsNothing(s.c, step.fd, step.errno, s.clock);
    hide StartInLoop, Restart, StopInLoop;
  }

  lemma {:induction false} RunWillClose(s: Sys, steps: seq<Step>, fd: Fd, r: Rules)
    requires Inv(s, r) && Short(r) && Possible(s, steps, r) && WillClose(s, fd)
    ensures WillClose(Exec(s, steps, r), fd)
    decreases |steps|
  {
    if steps != [] {
      StepKeepsInv(s, steps[0], r);
      StepWillClose(s, steps[0], fd, r);
      hide Inv, WillClose, Apply, Enabled;
      RunWillClose(Apply(s, steps[0]), steps[1..], fd, r);
    }
  }

  /** A forced close of the delivered connection, whatever else happens: once its functor is not queued any more, that
      connection is not open. */
  lemma QueuedCloseIsServed(before: seq<Step>, after: seq<Step>, r: Rules)
    requires Short(r) && Possible(Begin, before, r) && Can(Exec(Begin, before, r), QueueClose)
    requires Possible(Apply(Exec(Begin, before, r), QueueClose), after, r)
    ensures var fd, t := Exec(Begin, before, r).up.fd, Exec(Apply(Exec(Begin, before, r), QueueClose), after, r);
      CloseTask(fd) in t.batch || CloseTask(fd) in t.pending || t.up.Nobody? || t.up.fd != fd
  {
    Reached(Begin, before, r);
    ServedFrom(Exec(Begin, before, r), after, r);
  }

  lemma ServedFrom(s: Sys, after: seq<Step>, r: Rules)
    requires Short(r) && Inv(s, r) && Can(s, QueueClose) && Possible(Apply(s, QueueClose), after, r)
    ensures WillClose(Exec(Apply(s, QueueClose), after, r), s.up.fd)
  {
    StepKeepsInv(s, QueueClose, r);
    UpIsDelivered(s, r);
    hide Inv, Possible, Exec;
    RunWillClose(Apply(s, QueueClose), after, s.up.fd, r);
  }

  lemma UpIsDelivered(s: Sys, r: Rules)
    requires Inv(s, r) && !s.up.Nobody?
    ensures s.up.fd in s.c.delivered
  {
  }
}
