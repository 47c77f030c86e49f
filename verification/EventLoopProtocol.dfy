/** The functor queue of one event loop as a concurrent protocol: the loop thread and any number of other
    threads interleave at the granularity of one lock section, one eventfd access or one flag access. */
module EventLoopProtocol {
  type Functor = nat
  type Thread = nat

  // The eventfd counter never exceeds this; a write that would is refused and changes nothing.
  const EVENTFD_MAX: nat := 0xFFFF_FFFF_FFFF_FFFE

  /** Where the loop thread is in loop(). `wakeup`: the wakeup channel is still to be dispatched. */
  datatype Pc =
    | Check                         // while (!quit_)
    | Polling                       // inside epoll_wait
    | Dispatching(wakeup: bool)     // handling active channels
    | Swapping                      // in doPendingFunctors, before the swap
    | Running                       // in doPendingFunctors, after the swap
    | Stopped

  datatype Loop = Loop(
    pc: Pc,
    pending: seq<Functor>,          // pendingFunctors_
    batch: seq<Functor>,            // the part of `functors` not run yet
    calling: bool,                  // callingPendingFunctors_
    eventfd: nat,
    quit: bool,
    owing: set<Thread>,             // other threads that have pushed (or set quit_) and not yet written the eventfd
    selfOwing: bool,                // the same for the loop thread
    pushed: seq<Functor>,           // every push, in the order the mutex was taken
    executed: seq<Functor>)         // every functor run, in order

  const Start := Loop(Check, [], [], false, 0, false, {}, false, [], [])

  datatype Step =
    | Push(thread: Thread, f: Functor)   // queueInLoop in another thread, up to the end of its lock section
    | Quit(thread: Thread)               // quit() in another thread
    | Wakeup(thread: Thread)             // the eventfd write that follows either
    | LoopPush(f: Functor)               // queueInLoop in the loop thread, from a handler or a functor
    | LoopWakeup
    | LoopQuit
    | Enter                              // test quit_
    | PollReturn(wakeup: bool)
    | ReadEventfd                        // handleRead of the wakeup channel
    | EndDispatch
    | Swap
    | RunOne
    | EndRun

  predicate Enabled(s: Loop, step: Step) {
    match step
    case Push(t, _) => t !in s.owing
    case Quit(t) => t !in s.owing
    case Wakeup(t) => t in s.owing
    case LoopPush(_) => (s.pc.Dispatching? || s.pc.Running?) && !s.selfOwing
    case LoopWakeup => s.selfOwing
    case LoopQuit => (s.pc.Dispatching? || s.pc.Running?) && !s.selfOwing
    case Enter => s.pc.Check?
    case PollReturn(wakeup) => s.pc.Polling? && (wakeup ==> s.eventfd > 0)
    case ReadEventfd => s.pc == Dispatching(true)
    case EndDispatch => s.pc == Dispatching(false)
    case Swap => s.pc.Swapping?
    case RunOne => s.pc.Running? && s.batch != [] && !s.selfOwing
    case EndRun => s.pc.Running? && s.batch == [] && !s.selfOwing
  }

  function Written(eventfd: nat): nat {
    if eventfd < EVENTFD_MAX then eventfd + 1 else eventfd
  }

  function Apply(s: Loop, step: Step): Loop
    requires Enabled(s, step)
  {
    match step
    case Push(t, f) => s.(pending := s.pending + [f], pushed := s.pushed + [f], owing := s.owing + {t})
    case Quit(t) => s.(quit := true, owing := s.owing + {t})
    case Wakeup(t) => s.(eventfd := Written(s.eventfd), owing := s.owing - {t})
    case LoopPush(f) => s.(pending := s.pending + [f], pushed := s.pushed + [f], selfOwing := s.calling)
    case LoopWakeup => s.(eventfd := Written(s.eventfd), selfOwing := false)
    case LoopQuit => s.(quit := true)
    case Enter => s.(pc := if s.quit then Stopped else Polling)
    case PollReturn(wakeup) => s.(pc := Dispatching(wakeup))
    case ReadEventfd => s.(pc := Dispatching(false), eventfd := 0)
    case EndDispatch => s.(pc := Swapping, calling := true)
    case Swap => s.(pc := Running, batch := s.pending, pending := [])
    case RunOne => s.(batch := s.batch[1..], executed := s.executed + [s.batch[0]])
    case EndRun => s.(pc := Check, calling := false)
  }

  ghost predicate Possible(s: Loop, steps: seq<Step>)
    decreases |steps|
  {
    steps != [] ==> Enabled(s, steps[0]) && Possible(Apply(s, steps[0]), steps[1..])
  }

  ghost function Exec(s: Loop, steps: seq<Step>): Loop
    requires Possible(s, steps)
    decreases |steps|
  {
    if steps == [] then s else Exec(Apply(s, steps[0]), steps[1..])
  }

  // Somebody will make, or has made, the eventfd readable.
  predicate Roused(s: Loop) {
    s.eventfd > 0 || s.owing != {} || s.selfOwing
  }

  ghost predicate Inv(s: Loop) {
    && s.pushed == s.executed + s.batch + s.pending
    && (s.calling <==> s.pc.Swapping? || s.pc.Running?)
    && (s.batch != [] || s.selfOwing ==> s.pc.Running?)
    && (s.pending != [] && (s.pc.Check? || s.pc.Polling? || s.pc.Running?) ==> Roused(s))
    && (s.quit && s.pc.Polling? ==> Roused(s))
  }

  lemma StepKeepsInv(s: Loop, step: Step)
    requires Inv(s) && Enabled(s, step)
    ensures Inv(Apply(s, step))
  {
    match step
    case Push(t, f) => assert t in Apply(s, step).owing;
    case Quit(t) => assert t in Apply(s, step).owing;
    case RunOne => assert s.batch == [s.batch[0]] + s.batch[1..];
    case _ =>
  }

  lemma QueuedMeansRoused(s: Loop)
    requires Inv(s) && (s.pc.Check? || s.pc.Polling? || s.pc.Running?)
    ensures s.pending != [] ==> Roused(s)
  {
  }

  lemma {:induction false} RunKeepsInv(s: Loop, steps: seq<Step>)
    requires Inv(s) && Possible(s, steps)
    ensures Inv(Exec(s, steps))
    decreases |steps|
  {
    if steps != [] {
      StepKeepsInv(s, steps[0]);
      RunKeepsInv(Apply(s, steps[0]), steps[1..]);
    }
  }

  /** No lost wakeup: in every interleaving, whenever the loop is in epoll_wait with work queued or a quit
      requested, the eventfd is readable or some thread is about to write it. */
  lemma NoLostWakeup(steps: seq<Step>)
    requires Possible(Start, steps) && Exec(Start, steps).pc.Polling?
    requires Exec(Start, steps).pending != [] || Exec(Start, steps).quit
    ensures Exec(Start, steps).eventfd > 0 || Exec(Start, steps).owing != {}
  {
    RunKeepsInv(Start, steps);
  }

  /** So the loop can be made to return from epoll_wait by at most one step of another thread. */
  lemma PollCanReturn(s: Loop)
    requires Inv(s) && s.pc.Polling? && (s.pending != [] || s.quit)
    ensures Enabled(s, PollReturn(true)) ||
            exists t :: Enabled(s, Wakeup(t)) && Enabled(Apply(s, Wakeup(t)), PollReturn(true))
  {
    if s.eventfd == 0 {
      var t :| t in s.owing;
      assert Enabled(s, Wakeup(t)) && Enabled(Apply(s, Wakeup(t)), PollReturn(true));
    }
  }

  /** Exactly once, in lock order: what has run, what is left of the batch and what is queued make up the pushes. */
  lemma ExactlyOnceFifo(steps: seq<Step>)
    requires Possible(Start, steps)
    ensures var s := Exec(Start, steps); s.executed + s.batch + s.pending == s.pushed
  {
    RunKeepsInv(Start, steps);
  }

  // ---- one doPendingFunctors, whole iterations ----

  /** Between the swap and the end of doPendingFunctors, whatever else happens, the functors run are the ones
      the swap took; so there are no more of them than that. */
  lemma {:induction false} BatchIsFixed(s: Loop, steps: seq<Step>)
    requires s.pc.Running? && Possible(s, steps) && EndRun !in steps
    ensures var r := Exec(s, steps);
      r.pc.Running? && |s.executed| <= |r.executed| && r.executed + r.batch == s.executed + s.batch
    ensures |Exec(s, steps).batch| + Count(steps, RunOne) == |s.batch|
    decreases |steps|
  {
    if steps != [] {
      assert steps[0] in steps;
      assert steps[0] == RunOne ==> s.batch == [s.batch[0]] + s.batch[1..];
      BatchIsFixed(Apply(s, steps[0]), steps[1..]);
    }
  }

  function Count(steps: seq<Step>, step: Step): nat {
    if steps == [] then 0 else (if steps[0] == step then 1 else 0) + Count(steps[1..], step)
  }

  /** A complete doPendingFunctors runs exactly the functors present at its swap; those they push, and those
      other threads push meanwhile, are left for the next one. */
  lemma DoPendingFunctorsRunsTheBatch(s: Loop, during: seq<Step>)
    requires s.pc.Swapping? && s.batch == []
    requires Possible(s, [Swap] + during + [EndRun]) && EndRun !in during
    ensures Exec(s, [Swap] + during + [EndRun]).executed == s.executed + s.pending
    ensures Count(during, RunOne) == |s.pending|
  {
    assert [Swap] + during + [EndRun] == [Swap] + (during + [EndRun]);
    assert ([Swap] + (during + [EndRun]))[1..] == during + [EndRun];
    var swapped := Apply(s, Swap);
    Concat(swapped, during, [EndRun]);
    BatchIsFixed(swapped, during);
    assert [EndRun][1..] == [];
  }

  lemma {:induction false} Concat(s: Loop, a: seq<Step>, b: seq<Step>)
    ensures Possible(s, a + b) <==> Possible(s, a) && Possible(Exec(s, a), b)
    ensures Possible(s, a + b) ==> Exec(s, a + b) == Exec(Exec(s, a), b)
    decreases |a|
  {
    if a == [] {
      assert a + b == b;
    } else {
      assert (a + b)[0] == a[0] && (a + b)[1..] == a[1..] + b;
      if Enabled(s, a[0]) {
        Concat(Apply(s, a[0]), a[1..], b);
      }
    }
  }

  lemma ExecNone(s: Loop)
    ensures Possible(s, []) && Exec(s, []) == s
  {
  }

  lemma ExecOne(s: Loop, a: Step)
    requires Enabled(s, a)
    ensures Possible(s, [a]) && Exec(s, [a]) == Apply(s, a)
  {
    assert [a][1..] == [];
  }

  lemma ExecMore(s: Loop, steps: seq<Step>, a: Step)
    requires Possible(s, steps) && Enabled(Exec(s, steps), a)
    ensures Possible(s, steps + [a]) && Exec(s, steps + [a]) == Apply(Exec(s, steps), a)
  {
    Concat(s, steps, [a]);
    ExecOne(Exec(s, steps), a);
  }

  // How many pushes the current iteration has promised to run by its end.
  function Promised(s: Loop): nat {
    |s.executed| + |s.batch| + if s.pc.Running? then 0 else |s.pending|
  }

  lemma {:induction false} PromisesAreKept(s: Loop, steps: seq<Step>)
    requires Inv(s) && Possible(s, steps)
    ensures Promised(s) <= Promised(Exec(s, steps))
    ensures s.pushed <= Exec(s, steps).pushed
    decreases |steps|
  {
    if steps != [] {
      StepKeepsInv(s, steps[0]);
      PromisesAreKept(Apply(s, steps[0]), steps[1..]);
    }
  }

  /** Everything queued when the loop is not running functors has run by the end of the next doPendingFunctors,
      in order, whatever else is pushed meanwhile. */
  lemma IterationRunsTheQueue(s: Loop, steps: seq<Step>)
    requires Inv(s) && !s.pc.Running?
    requires Possible(s, steps + [EndRun])
    ensures s.executed + s.pending <= Exec(s, steps + [EndRun]).executed
  {
    Concat(s, steps, [EndRun]);
    PromisesAreKept(s, steps);
    RunKeepsInv(s, steps);
    assert [EndRun][1..] == [];
    var r := Exec(s, steps);
    assert s.pushed <= r.pushed;
    assert s.executed + s.batch + s.pending == s.executed + s.pending;
    assert r.executed == r.pushed[..|r.executed|];
  }

  /** Why handlers and functors may push without more ado and nobody else: a push by the loop thread outside
      doPendingFunctors writes nothing, and is safe before epoll_wait exactly when the loop is roused anyway. */
  lemma SilentPushIsSafeIffRoused(s: Loop, f: Functor)
    requires Inv(s) && (s.pc.Check? || s.pc.Polling?)
    ensures Inv(s.(pending := s.pending + [f], pushed := s.pushed + [f])) <==> Roused(s)
  {
    assert s.executed + s.batch + (s.pending + [f]) == s.executed + s.batch + s.pending + [f];
  }

  // ---- the loop goes on, until quit ----

  ghost predicate Asked(steps: seq<Step>) {
    exists step <- steps :: step.Quit? || step.LoopQuit?
  }

  /** In every run quit_ is set exactly if quit was called, by whatever thread; the loop stops only then; and once it
      was called, the loop does not poll again. */
  lemma {:induction false} StopsWhenAsked(s: Loop, steps: seq<Step>)
    requires Possible(s, steps) && (s.pc.Stopped? ==> s.quit)
    ensures Exec(s, steps).quit <==> s.quit || Asked(steps)
    ensures Exec(s, steps).pc.Stopped? ==> s.quit || Asked(steps)
    ensures s.quit && !s.pc.Polling? ==> !Exec(s, steps).pc.Polling?
    decreases |steps|
  {
    if steps != [] {
      StopsWhenAsked(Apply(s, steps[0]), steps[1..]);
      assert steps == [steps[0]] + steps[1..];
      assert Asked(steps) <==> steps[0].Quit? || steps[0].LoopQuit? || Asked(steps[1..]);
    }
  }

  predicate ByTheLoop(step: Step) {
    || step.Enter? || step.PollReturn? || step.ReadEventfd? || step.EndDispatch?
    || step.Swap? || step.RunOne? || step.EndRun?
  }

  ghost predicate Alone(steps: seq<Step>) {
    forall step <- steps :: ByTheLoop(step)
  }

  lemma GoOn(s: Loop, steps: seq<Step>, step: Step) returns (longer: seq<Step>, t: Loop)
    requires Possible(s, steps) && Enabled(Exec(s, steps), step) && Alone(steps) && ByTheLoop(step)
    ensures Possible(s, longer) && Alone(longer) && Exec(s, longer) == t && t == Apply(Exec(s, steps), step)
  {
    ExecMore(s, steps, step);
    longer := steps + [step];
    t := Exec(s, longer);
  }

  lemma {:induction false} RunsOut(s: Loop, steps: seq<Step>) returns (longer: seq<Step>, t: Loop)
    requires Possible(s, steps) && Alone(steps) && Exec(s, steps).pc.Running? && !Exec(s, steps).selfOwing
    ensures Possible(s, longer) && Alone(longer) && Exec(s, longer) == t
    ensures var u := Exec(s, steps);
      t == u.(batch := [], executed := u.executed + u.batch)
    decreases |Exec(s, steps).batch|
  {
    var u := Exec(s, steps);
    if u.batch == [] {
      longer, t := steps, u;
    } else {
      longer, t := GoOn(s, steps, RunOne);
      assert u.executed + [u.batch[0]] + u.batch[1..] == u.executed + u.batch;
      longer, t := RunsOut(s, longer);
    }
  }

  /** A roused loop needs nobody else: by its own steps it returns from epoll_wait, empties the eventfd, runs everything
      that was queued, in order, and comes back to the test of quit_. */
  lemma RousedLoopRunsTheQueue(s: Loop) returns (steps: seq<Step>)
    requires Inv(s) && s.pc.Polling? && s.eventfd > 0
    ensures Possible(s, steps) && Alone(steps)
    ensures Exec(s, steps) == s.(pc := Check, eventfd := 0, pending := [], executed := s.executed + s.pending)
  {
    var t: Loop;
    ExecNone(s);
    hide Possible, Exec;
    steps, t := GoOn(s, [], PollReturn(true));
    steps, t := GoOn(s, steps, ReadEventfd);
    steps, t := GoOn(s, steps, EndDispatch);
    steps, t := GoOn(s, steps, Swap);
    steps, t := RunsOut(s, steps);
    steps, t := GoOn(s, steps, EndRun);
  }

  /** So whatever is queued while the loop is in epoll_wait does run, and a loop that is asked to quit does come back to
      its test: after one write that some thread owes, if the loop has not been roused yet, and without further help. */
  lemma QueuedFunctorsRun(s: Loop) returns (steps: seq<Step>)
    requires Inv(s) && s.pc.Polling? && (s.pending != [] || s.quit)
    ensures Possible(s, steps) && forall step <- steps :: ByTheLoop(step) || step.Wakeup?
    ensures var t := Exec(s, steps);
      && t.executed == s.executed + s.pending && t.pc.Check? && t.quit == s.quit
      && Enabled(t, Enter) && Apply(t, Enter).pc == if s.quit then Stopped else Polling
  {
    if s.eventfd > 0 {
      steps := RousedLoopRunsTheQueue(s);
    } else {
      PollCanReturn(s);
      var t :| Enabled(s, Wakeup(t)) && Enabled(Apply(s, Wakeup(t)), PollReturn(true));
      var u := Apply(s, Wakeup(t));
      StepKeepsInv(s, Wakeup(t));
      var rest := RousedLoopRunsTheQueue(u);
      ExecOne(s, Wakeup(t));
      Concat(s, [Wakeup(t)], rest);
      steps := [Wakeup(t)] + rest;
    }
  }

  /** A loop that has just started polls, and a functor can be queued then: what NoLostWakeup is about happens. */
  lemma QueuedWhilePolling(thread: Thread, f: Functor) returns (steps: seq<Step>)
    ensures Possible(Start, steps) && Exec(Start, steps).pc.Polling? && Exec(Start, steps).pending == [f]
    ensures Exec(Start, steps).eventfd == 0 && thread in Exec(Start, steps).owing
  {
    ExecOne(Start, Enter);
    ExecMore(Start, [Enter], Push(thread, f));
    steps := [Enter] + [Push(thread, f)];
  }
}
