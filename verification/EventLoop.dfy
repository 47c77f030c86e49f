/** EventLoop's functor queue as it is written, each method shown to take steps of EventLoopProtocol. */
module EventLoop {
  import opened EventLoopProtocol

  /** A call of queueInLoop: by the running functor or handler, or by another thread meanwhile. */
  datatype Call = FromFunctor(f: Functor) | FromThread(thread: Thread, f: Functor)

  function Pushes(calls: seq<Call>): seq<Functor> {
    if calls == [] then [] else Pushes(calls[..|calls| - 1]) + [calls[|calls| - 1].f]
  }

  /** What the first n functors of a batch queue, and what other threads queue meanwhile. */
  function PushesTo(script: nat -> seq<Call>, n: nat): seq<Functor> {
    if n == 0 then [] else PushesTo(script, n - 1) + Pushes(script(n - 1))
  }

  class EventLoop {
    var pendingFunctors: seq<Functor>
    var callingPendingFunctors: bool
    var wakeupFd: nat                  // the eventfd's counter
    var quit: bool
    ghost var pc: Pc
    ghost var batch: seq<Functor>
    ghost var pushed: seq<Functor>
    ghost var executed: seq<Functor>

    // Between calls no thread owes a wakeup.
    ghost function Model(): Loop
      reads this
    {
      Loop(pc, pendingFunctors, batch, callingPendingFunctors, wakeupFd, quit, {}, false, pushed, executed)
    }

    ghost predicate Valid()
      reads this
    {
      Inv(Model())
    }

    constructor ()
      ensures Valid() && Model() == Start
    {
      pendingFunctors, callingPendingFunctors, wakeupFd, quit := [], false, 0, false;
      pc, batch, pushed, executed := Check, [], [], [];
    }

    /** One more on the counter; refused when it is full, and then it is readable already. */
    method WakeUp()
      modifies this`wakeupFd
      ensures wakeupFd == Written(old(wakeupFd))
    {
      if wakeupFd < EVENTFD_MAX {
        wakeupFd := wakeupFd + 1;
      }
    }

    /** handleRead of the wakeup channel. */
    method HandleRead()
      requires Valid() && pc == Dispatching(true)
      modifies this`wakeupFd, this`pc
      ensures Valid() && Model() == Apply(old(Model()), ReadEventfd)
    {
      wakeupFd := 0;
      pc := Dispatching(false);
    }

    /** `thread` is the caller when it is not the loop thread. */
    method QueueInLoop(f: Functor, isInLoopThread: bool, ghost thread: Thread) returns (ghost steps: seq<Step>)
      requires Valid()
      requires isInLoopThread ==> pc.Dispatching? || pc.Running?
      modifies this`pendingFunctors, this`pushed, this`wakeupFd
      ensures Valid()
      ensures pendingFunctors == old(pendingFunctors) + [f] && pushed == old(pushed) + [f]
      ensures wakeupFd == if !isInLoopThread || callingPendingFunctors then Written(old(wakeupFd)) else old(wakeupFd)
      ensures Possible(old(Model()), steps) && Exec(old(Model()), steps) == Model()
      ensures forall step <- steps :: step.Push? || step.Wakeup? || step.LoopPush? || step.LoopWakeup?
    {
      ghost var before := Model();
      pendingFunctors := pendingFunctors + [f];
      pushed := pushed + [f];
      if !isInLoopThread || callingPendingFunctors {
        WakeUp();
      }
      steps := if !isInLoopThread then [Push(thread, f), Wakeup(thread)]
               else if callingPendingFunctors then [LoopPush(f), LoopWakeup]
               else [LoopPush(f)];
      ExecOne(before, steps[0]);
      if |steps| == 2 {
        assert {} + {thread} - {thread} == {};
        ExecMore(before, [steps[0]], steps[1]);
        assert steps == [steps[0]] + [steps[1]];
      } else {
        assert steps == [steps[0]];
      }
      RunKeepsInv(before, steps);
    }

    /** In the loop thread the functor runs at once, and `calls` is what it queues; elsewhere it is queued. */
    method RunInLoop(f: Functor, isInLoopThread: bool, ghost thread: Thread, calls: seq<Call>)
      returns (ghost steps: seq<Step>)
      requires Valid() && (isInLoopThread ==> pc.Dispatching? || pc.Running?)
      modifies this`pendingFunctors, this`pushed, this`wakeupFd
      ensures Valid()
      ensures pendingFunctors == old(pendingFunctors) + if isInLoopThread then Pushes(calls) else [f]
      ensures !isInLoopThread ==> wakeupFd > 0
      ensures Possible(old(Model()), steps) && Exec(old(Model()), steps) == Model()
    {
      if isInLoopThread {
        steps := MakeCalls(calls);
      } else {
        steps := QueueInLoop(f, false, thread);
      }
    }

    method MakeCalls(calls: seq<Call>) returns (ghost steps: seq<Step>)
      requires Valid() && (pc.Dispatching? || pc.Running?)
      modifies this`pendingFunctors, this`pushed, this`wakeupFd
      ensures Valid() && pendingFunctors == old(pendingFunctors) + Pushes(calls)
      ensures Possible(old(Model()), steps) && Exec(old(Model()), steps) == Model()
    {
      hide Inv, Possible, Exec, Written;
      steps := [];
      ghost var before := Model();
      ExecNone(before);
      for i := 0 to |calls|
        invariant Valid() && pendingFunctors == old(pendingFunctors) + Pushes(calls[..i])
        invariant Possible(before, steps) && Exec(before, steps) == Model()
      {
        ghost var more: seq<Step>;
        match calls[i] {
          case FromFunctor(f) => more := QueueInLoop(f, true, 0);
          case FromThread(t, f) => more := QueueInLoop(f, false, t);
        }
        Concat(before, steps, more);
        steps := steps + more;
        assert calls[..i + 1][..i] == calls[..i];
      }
      assert calls[..|calls|] == calls;
    }

    /** doPendingFunctors. `script(i)` is what is queued while the i-th functor runs. */
    method DoPendingFunctors(script: nat -> seq<Call>) returns (ghost steps: seq<Step>)
      requires Valid() && pc == Dispatching(false)
      modifies this
      ensures Valid() && pc.Check? && !callingPendingFunctors
      ensures executed == old(executed) + old(pendingFunctors)
      ensures pendingFunctors == PushesTo(script, |old(pendingFunctors)|)
      ensures pendingFunctors != [] ==> wakeupFd > 0
      ensures Possible(old(Model()), steps) && Exec(old(Model()), steps) == Model()
    {
      hide Inv, Possible, Exec, Pushes, PushesTo;
      ghost var before := Model();
      var functors: seq<Functor>;
      functors, steps := SwapFunctors();
      steps := RunFunctors(functors, script, before, steps);
      ExecMore(before, steps, EndRun);
      RunKeepsInv(before, steps + [EndRun]);
      steps := steps + [EndRun];
      callingPendingFunctors := false;
      pc := Check;
      QueuedMeansRoused(Model());
    }

    // Setting the flag, then the swap under the mutex.
    method SwapFunctors() returns (functors: seq<Functor>, ghost steps: seq<Step>)
      requires Valid() && pc == Dispatching(false)
      modifies this`callingPendingFunctors, this`pendingFunctors, this`pc, this`batch
      ensures Valid() && pc.Running? && callingPendingFunctors
      ensures functors == batch == old(pendingFunctors) && pendingFunctors == []
      ensures Possible(old(Model()), steps) && Exec(old(Model()), steps) == Model()
    {
      hide Inv, Possible, Exec;
      ghost var before := Model();
      functors := [];
      callingPendingFunctors := true;
      functors, pendingFunctors := pendingFunctors, functors;
      pc, batch := Running, functors;
      steps := [EndDispatch] + [Swap];
      ExecOne(before, EndDispatch);
      ExecMore(before, [EndDispatch], Swap);
      RunKeepsInv(before, steps);
    }

    // The loop over the local vector. `before` and `done` are the run so far.
    method RunFunctors(functors: seq<Functor>, script: nat -> seq<Call>, ghost before: Loop, ghost done: seq<Step>)
      returns (ghost steps: seq<Step>)
      requires Valid() && pc.Running? && callingPendingFunctors && batch == functors && pendingFunctors == []
      requires Possible(before, done) && Exec(before, done) == Model()
      modifies this`pendingFunctors, this`pushed, this`wakeupFd, this`executed, this`batch
      ensures Valid() && batch == [] && executed == old(executed) + functors
      ensures pendingFunctors == PushesTo(script, |functors|)
      ensures Possible(before, steps) && Exec(before, steps) == Model()
    {
      hide Inv, Possible, Exec, Pushes;
      steps := done;
      var i := 0;
      while i < |functors|
        invariant 0 <= i <= |functors|
        invariant Valid() && batch == functors[i..] && executed == old(executed) + functors[..i]
        invariant pendingFunctors == PushesTo(script, i)
        invariant Possible(before, steps) && Exec(before, steps) == Model()
      {
        steps := RunFunctor(functors[i], script(i), before, steps);
        i := i + 1;
      }
    }

    /** functors[i](), with everything queued until it returns. */
    method RunFunctor(f: Functor, calls: seq<Call>, ghost before: Loop, ghost done: seq<Step>)
      returns (ghost steps: seq<Step>)
      requires Valid() && pc.Running? && batch != [] && batch[0] == f
      requires Possible(before, done) && Exec(before, done) == Model()
      modifies this`pendingFunctors, this`pushed, this`wakeupFd, this`executed, this`batch
      ensures Valid() && batch == old(batch)[1..] && executed == old(executed) + [f]
      ensures pendingFunctors == old(pendingFunctors) + Pushes(calls)
      ensures Possible(before, steps) && Exec(before, steps) == Model()
    {
      hide Inv, Possible, Exec, Pushes;
      StepKeepsInv(Model(), RunOne);
      ExecMore(before, done, RunOne);
      executed, batch := executed + [f], batch[1..];
      steps := MakeCalls(calls);
      Concat(before, done + [RunOne], steps);
      steps := done + [RunOne] + steps;
    }
  }
}
