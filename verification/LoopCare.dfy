/** Care is exactly what a loop needs to remove its channels safely: after a careless step some careful continuation
    finds an assertion broken or a channel removed twice, after a careful one none does. */
module LoopCare {
  import opened LoopDispatch
  import opened Queues
  import C = Connection
  import I = Interest

  ghost predicate CarefullyReaches(s: Loop, r: Loop) {
    exists steps :: CarefulRun(s, steps) && Possible(s, steps) && Exec(s, steps) == r
  }

  ghost predicate CanFail(s: Loop) {
    exists r :: CarefullyReaches(s, r) && r.failed
  }

  lemma ReachesSelf(s: Loop)
    ensures CarefullyReaches(s, s)
  {
    assert CarefulRun(s, []) && Possible(s, []) && Exec(s, []) == s;
  }

  lemma ReachesVia(s: Loop, step: Step, r: Loop)
    requires Can(s, step) && Careful(s, step) && CarefullyReaches(Apply(s, step), r)
    ensures CarefullyReaches(s, r)
  {
    var t := Apply(s, step);
    var steps :| CarefulRun(t, steps) && Possible(t, steps) && Exec(t, steps) == r;
    assert ([step] + steps)[0] == step && ([step] + steps)[1..] == steps;
    assert CarefulRun(s, [step] + steps) && Possible(s, [step] + steps) && Exec(s, [step] + steps) == r;
  }

  // ---- a connection that will be removed twice ----

  /** Calls of connectDestroyed queued or on their way. */
  function Due(s: Loop, id: Id): nat {
    Queued(s, Job(id, ConnectDestroyed)) + s.away[id]
  }

  predicate IsQueued(s: Loop, job: Job) {
    job in s.batch || job in s.pending
  }

  /** How far a connection is from being removed when the poller does not know it. 3: it was reopened after its close,
      and a forced close is queued. 2: closed, with two removals to come. 1: gone, with one to come. */
  predicate Cursed(s: Loop, id: Id, level: nat) {
    && IsKind(s, id, Connection)
    && (s.objects[id].stage.Closed? || (s.objects[id].stage.Gone? && s.objects[id].mark.index.New?))
    && (match level
        case 1 => s.objects[id].stage.Gone? && Due(s, id) >= 1
        case 2 => s.objects[id].stage.Closed? && Due(s, id) >= 2
        case 3 =>
          && IsOpen(s.objects[id]) && IsQueued(s, Job(id, ForceCloseInLoop))
          && (s.objects[id].stage.Closed? ==> Due(s, id) >= 1)
        case _ => false)
  }

  /** The functor that brings it closer. */
  function Key(id: Id, level: nat): Job {
    Job(id, if level == 3 then ForceCloseInLoop else ConnectDestroyed)
  }

  function Index(queue: seq<Job>, job: Job): nat {
    if queue == [] || queue[0] == job then 0 else 1 + Index(queue[1..], job)
  }

  lemma {:induction false} IndexOfPrefix(a: seq<Job>, b: seq<Job>, job: Job)
    requires job in a
    ensures Index(a + b, job) == Index(a, job)
    decreases |a|
  {
    assert (a + b)[0] == a[0] && (a + b)[1..] == a[1..] + b;
    if a[0] != job { IndexOfPrefix(a[1..], b, job); }
  }

  lemma DueGrows(s: Loop, t: Loop, id: Id)
    requires t.batch == s.batch && s.pending <= t.pending && t.away[id] >= s.away[id]
    ensures Due(t, id) >= Due(s, id)
  {
    var more := t.pending[|s.pending|..];
    assert t.pending == s.pending + more;
    TimesConcat(s.pending, more, Job(id, ConnectDestroyed));
  }

  // What is done to another object.
  lemma PerformElsewhere(s: Loop, i: Id, action: Action, id: Id)
    requires i != id && id in s.objects
    ensures var t := Perform(s, i, action);
      && t.batch == s.batch && s.pending <= t.pending && Due(t, id) >= Due(s, id)
      && id in t.objects && t.objects[id] == s.objects[id]
  {
    hide Effect, I.Apply, Due;
    DueGrows(s, Perform(s, i, action), id);
  }

  // What changes neither stage nor state of this one.
  lemma PerformMildly(s: Loop, id: Id, action: Action)
    requires IsKind(s, id, Connection) && (s.objects[id].stage.Closed? || s.objects[id].stage.Gone?)
    requires !action.ForceCloseInLoop? && !action.ConnectDestroyed?
    ensures var t := Perform(s, id, action);
      t.failed || (
        && t.batch == s.batch && t.pending == s.pending && t.away == s.away && IsKind(t, id, Connection)
        && t.objects[id].stage == s.objects[id].stage && t.objects[id].state == s.objects[id].state
        && (s.objects[id].stage.Gone? ==> t.objects[id].mark == s.objects[id].mark))
  {
    EffectStays(s.objects[id], action);
    hide Effect, I.Apply;
  }

  lemma OtherJob(s: Loop, id: Id)
    requires s.phase.Running? && s.batch != [] && IsKind(s, id, Connection)
    requires s.objects[id].stage.Closed? || s.objects[id].stage.Gone?
    requires s.batch[0].id == id ==> !s.batch[0].action.ForceCloseInLoop? && !s.batch[0].action.ConnectDestroyed?
    ensures var t := Apply(s, RunOne);
      t.failed || (
        && t.batch == s.batch[1..] && s.pending <= t.pending && Due(t, id) >= Due(s, id)
        && IsKind(t, id, Connection)
        && t.objects[id].stage == s.objects[id].stage && t.objects[id].state == s.objects[id].state
        && (s.objects[id].stage.Gone? ==> t.objects[id].mark == s.objects[id].mark))
  {
    var u, job := s.(batch := s.batch[1..]), s.batch[0];
    TakeCounts(s, Job(id, ConnectDestroyed));
    hide Perform, Queued;
    if job.id == id { PerformMildly(u, id, job.action); } else { PerformElsewhere(u, job.id, job.action, id); }
  }

  lemma EffectStays(o: Object, action: Action)
    ensures var e := Effect(o, action);
      e.kind == o.kind && e.stage == o.stage && e.state == o.state && (o.stage.Gone? ==> e.mark == o.mark)
  {
  }

  // forceCloseInLoop and connectDestroyed of the connection itself.
  lemma OwnJob(s: Loop, id: Id)
    requires s.phase.Running? && s.batch != [] && IsKind(s, id, Connection) && s.batch[0].id == id
    requires s.batch[0].action.ForceCloseInLoop? || s.batch[0].action.ConnectDestroyed?
    ensures var o, t := s.objects[id], Apply(s, RunOne);
      t.failed || (
        && t.batch == s.batch[1..] && s.pending <= t.pending && IsKind(t, id, Connection)
        && (if s.batch[0].action.ConnectDestroyed?
            then t.objects[id].stage.Gone? && t.objects[id].mark.index.New? && t.objects[id].state == o.state
                 && !o.mark.index.New? && Due(t, id) + 1 >= Due(s, id)
            else if !IsOpen(o) then t.objects[id] == o && Due(t, id) >= Due(s, id)
            else !o.stage.Gone? && (o.stage.Closed? ==> t.objects[id].stage.Closed?) && Due(t, id) >= Due(s, id) + 1))
  {
    TakeCounts(s, Job(id, ConnectDestroyed));
    var u := s.(batch := s.batch[1..]);
    QueueCounts(u, Job(id, ConnectDestroyed), Job(id, ConnectDestroyed));
    hide Queued, I.Apply;
  }

  lemma CursedStep(s: Loop, id: Id, level: nat)
    requires s.phase.Running? && s.batch != [] && Cursed(s, id, level)
    ensures var t := Apply(s, RunOne);
      t.failed || (
        && t.batch == s.batch[1..] && s.pending <= t.pending
        && if s.batch[0] == Key(id, level) then level > 1 && Cursed(t, id, level - 1) else Cursed(t, id, level))
  {
    var job := s.batch[0];
    if job.id == id && (job.action.ForceCloseInLoop? || job.action.ConnectDestroyed?) {
      OwnJob(s, id);
    } else {
      OtherJob(s, id);
    }
    var t := Apply(s, RunOne);
    assert s.batch == [job] + s.batch[1..];
    assert s.pending <= t.pending ==> forall j <- s.pending :: j in t.pending;
    hide Apply, Due, Can;
  }

  // An empty poll, and the functors are taken.
  lemma NextBatch(s: Loop, id: Id, level: nat) returns (t: Loop)
    requires s.phase.Running? && s.batch == [] && Cursed(s, id, level)
    ensures t == s.(batch := s.pending, pending := []) && Cursed(t, id, level)
    ensures forall r | CarefullyReaches(t, r) :: CarefullyReaches(s, r)
  {
    var u := Apply(s, EndRun);
    var v := Apply(u, Poll([]));
    t := Apply(v, EndDispatch);
    TimesAppend([], Job(id, ConnectDestroyed), Job(id, ConnectDestroyed));
    forall r | CarefullyReaches(t, r) ensures CarefullyReaches(s, r) {
      ReachesVia(v, EndDispatch, r);
      ReachesVia(u, Poll([]), r);
      ReachesVia(s, EndRun, r);
    }
  }

  lemma IndexAfterRunOne(s: Loop, t: Loop, key: Job)
    requires s.batch != [] && s.batch[0] != key && IsQueued(s, key)
    requires t.batch == s.batch[1..] && s.pending <= t.pending
    ensures IsQueued(t, key) && Index(t.batch + t.pending, key) < Index(s.batch + s.pending, key)
  {
    var rest, more := s.batch[1..] + s.pending, t.pending[|s.pending|..];
    assert s.batch == [s.batch[0]] + s.batch[1..];
    assert key in rest;
    assert (s.batch + s.pending)[0] == s.batch[0] && (s.batch + s.pending)[1..] == rest;
    assert t.pending == s.pending + more && t.batch + t.pending == rest + more;
    IndexOfPrefix(rest, more, key);
    assert forall j <- s.pending :: j in t.pending;
  }

  lemma {:induction false} RunningFails(s: Loop, id: Id, level: nat) returns (r: Loop)
    requires s.phase.Running? && Cursed(s, id, level)
    ensures CarefullyReaches(s, r) && r.failed
    decreases level, if IsQueued(s, Key(id, level)) then 0 else 1, Index(s.batch + s.pending, Key(id, level)),
      if s.batch == [] then 1 else 0
  {
    var key := Key(id, level);
    if !IsQueued(s, key) {
      var t := Apply(s, Return(id));
      QueueCounts(s.(away := s.away - multiset{id}), Job(id, ConnectDestroyed), Job(id, ConnectDestroyed));
      assert key in t.pending;
      r := RunningFails(t, id, level);
      ReachesVia(s, Return(id), r);
    } else if s.batch == [] {
      var t := NextBatch(s, id, level);
      assert t.batch + t.pending == s.batch + s.pending;
      r := RunningFails(t, id, level);
    } else {
      var t := Apply(s, RunOne);
      CursedStep(s, id, level);
      if t.failed {
        r := t;
        ReachesSelf(r);
      } else if s.batch[0] == key {
        r := RunningFails(t, id, level - 1);
      } else {
        IndexAfterRunOne(s, t, key);
        r := RunningFails(t, id, level);
      }
      ReachesVia(s, RunOne, r);
    }
  }

  // ---- from any phase ----

  ghost predicate WellPhased(s: Loop) {
    && (s.phase.Running? || s.batch == [])
    && (s.phase.Dispatching? ==>
          s.phase.at <= |s.phase.active| && (s.phase.inside ==> s.phase.at < |s.phase.active|))
  }

  // The rest of the list is handled, with nothing happening, and the functors are taken.
  lemma {:induction false} DispatchEnds(s: Loop) returns (t: Loop)
    requires WellPhased(s) && s.phase.Dispatching?
    ensures CarefullyReaches(s, t) && t.phase.Running?
    ensures t.objects == s.objects && t.away == s.away && t.batch == s.pending && t.pending == []
    decreases |s.phase.active| - s.phase.at, if s.phase.inside then 0 else 1
  {
    var step := if s.phase.inside then Leave else if s.phase.at < |s.phase.active| then Enter else EndDispatch;
    if step.EndDispatch? {
      t := Apply(s, step);
      ReachesSelf(t);
    } else {
      t := DispatchEnds(Apply(s, step));
    }
    ReachesVia(s, step, t);
  }

  lemma ReachesOn(s: Loop, t: Loop, r: Loop)
    requires CarefullyReaches(s, t) && CarefullyReaches(t, r)
    ensures CarefullyReaches(s, r)
  {
    var steps :| CarefulRun(s, steps) && Possible(s, steps) && Exec(s, steps) == t;
    ReachesAlong(s, steps, r);
  }

  lemma {:induction false} ReachesAlong(s: Loop, steps: seq<Step>, r: Loop)
    requires CarefulRun(s, steps) && Possible(s, steps) && CarefullyReaches(Exec(s, steps), r)
    ensures CarefullyReaches(s, r)
    decreases |steps|
  {
    if steps != [] {
      ReachesAlong(Apply(s, steps[0]), steps[1..], r);
      ReachesVia(s, steps[0], r);
    }
  }

  lemma CursedFails(s: Loop, id: Id, level: nat) returns (r: Loop)
    requires WellPhased(s) && Cursed(s, id, level)
    ensures CarefullyReaches(s, r) && r.failed
  {
    TimesAppend([], Job(id, ConnectDestroyed), Job(id, ConnectDestroyed));
    if s.phase.Running? {
      r := RunningFails(s, id, level);
    } else if s.phase.Dispatching? {
      var t := DispatchEnds(s);
      r := RunningFails(t, id, level);
      ReachesOn(s, t, r);
    } else {
      var u := Apply(s, Poll([]));
      var t := DispatchEnds(u);
      r := RunningFails(t, id, level);
      ReachesOn(u, t, r);
      ReachesVia(s, Poll([]), r);
    }
  }

  // ---- careless steps ----

  lemma ClosedOnce(s: Loop, id: Id)
    requires Inv(s) && IsClosed(s, id)
    ensures var o := s.objects[id];
      && (o.stage.Closed? || (o.stage.Gone? && o.mark.index.New?)) && (o.stage.Closed? ==> Due(s, id) == 1)
  {
    assert Marked(s.objects[id]) && Regular(ViewOf(s, id));
  }

  lemma InvIsWellPhased(s: Loop)
    requires Inv(s)
    ensures WellPhased(s)
  {
  }

  // A call that shutdown or forceClose makes of an object's state, and a functor at most.
  lemma Reopening(s: Loop, id: Id, inLoop: bool)
    requires Can(s, Call(id, Shutdown, inLoop)) && WellPhased(s)
    requires IsKind(s, id, Connection)
    ensures var t := Apply(s, Call(id, Shutdown, inLoop));
      && IsKind(t, id, Connection) && t.objects[id] == s.objects[id].(state := C.Disconnecting) && t.phase == s.phase
      && t.batch == s.batch && s.pending <= t.pending && t.away == s.away && WellPhased(t)
  {
  }

  lemma Forcing(t: Loop, id: Id)
    requires IsKind(t, id, Connection) && t.objects[id].state.Disconnecting? && WellPhased(t)
    ensures Can(t, Call(id, ForceClose, false))
    ensures var u := Apply(t, Call(id, ForceClose, false));
      && u.objects[id] == t.objects[id] && IsKind(u, id, Connection) && WellPhased(u)
      && u.batch == t.batch && u.pending == t.pending + [Job(id, ForceCloseInLoop)] && u.away == t.away
  {
  }

  // shutdown reopens the closed connection; forceClose is all it takes then.
  lemma CarelessShutdown(s: Loop, id: Id, inLoop: bool) returns (r: Loop)
    requires Inv(s) && Can(s, Call(id, Shutdown, inLoop)) && IsClosed(s, id)
    ensures CarefullyReaches(Apply(s, Call(id, Shutdown, inLoop)), r) && r.failed
  {
    ClosedOnce(s, id);
    InvIsWellPhased(s);
    Reopening(s, id, inLoop);
    var t := Apply(s, Call(id, Shutdown, inLoop));
    Forcing(t, id);
    var u := Apply(t, Call(id, ForceClose, false));
    hide Apply, Inv, Due;
    DueGrows(s, u, id);
    assert Job(id, ForceCloseInLoop) in u.pending;
    r := CursedFails(u, id, 3);
    ReachesVia(t, Call(id, ForceClose, false), r);
  }

  // The handlers before it do nothing; its own hangs up.
  lemma {:induction false} ReportedFails(s: Loop, k: nat) returns (r: Loop)
    requires s.phase.Dispatching? && !s.phase.inside && !s.phase.hung && s.phase.at <= k < |s.phase.active|
    requires IsClosed(s, s.phase.active[k])
    ensures CarefullyReaches(s, r) && r.failed
    decreases k - s.phase.at
  {
    var t := Apply(s, Enter);
    if s.phase.at == k {
      r := Apply(t, React(HangUp));
      ReachesSelf(r);
      ReachesVia(t, React(HangUp), r);
    } else {
      r := ReportedFails(Apply(t, Leave), k);
      ReachesVia(t, Leave, r);
    }
    ReachesVia(s, Enter, r);
  }

  lemma CarelessPoll(s: Loop, active: seq<Id>) returns (r: Loop)
    requires Can(s, Poll(active)) && !Careful(s, Poll(active))
    ensures CarefullyReaches(Apply(s, Poll(active)), r) && r.failed
  {
    var id :| id in active && IsClosed(s, id);
    var k :| 0 <= k < |active| && active[k] == id;
    r := ReportedFails(Apply(s, Poll(active)), k);
  }

  // ---- exactly ----

  /** Care is exact: a step is careful if and only if no careful continuation breaks an assertion of removeChannel or
      handleClose, or finds an object again that is gone. */
  lemma CarefulIff(s: Loop, step: Step)
    requires Inv(s) && Can(s, step)
    ensures Careful(s, step) <==> !CanFail(Apply(s, step))
  {
    if Careful(s, step) {
      StepKeepsInv(s, step);
      forall r | CarefullyReaches(Apply(s, step), r) ensures !r.failed {
        var t := Apply(s, step);
        var steps :| CarefulRun(t, steps) && Possible(t, steps) && Exec(t, steps) == r;
        RunKeepsInv(t, steps);
      }
    } else if step.Poll? {
      var r := CarelessPoll(s, step.active);
    } else {
      var r := CarelessShutdown(s, step.id, step.inLoop);
    }
  }

  /** epoll can report a closed connection exactly when one is in its list. */
  lemma ReportedIffListed(s: Loop)
    requires s.phase.Polling?
    ensures (exists active :: Can(s, Poll(active)) && !Careful(s, Poll(active)))
            <==> exists id :: IsClosed(s, id) && s.objects[id].mark.index.Added?
  {
    if id :| IsClosed(s, id) && s.objects[id].mark.index.Added? {
      assert id in [id];
      assert Can(s, Poll([id])) && !Careful(s, Poll([id]));
    }
    if active :| Can(s, Poll(active)) && !Careful(s, Poll(active)) {
      var id :| id in active && IsClosed(s, id);
      assert s.objects[id].mark.index.Added?;
    }
  }

  // ---- it happens ----

  lemma Onward(s: Loop, step: Step) returns (t: Loop)
    requires CarefullyReaches(Start, s) && Can(s, step) && Careful(s, step)
    ensures CarefullyReaches(Start, t) && t == Apply(s, step)
  {
    t := Apply(s, step);
    ReachesSelf(t);
    ReachesVia(s, step, t);
    ReachesOn(Start, s, t);
  }

  // A connection is up; its reading is stopped or not.
  lemma UpHappens(stopped: bool) returns (s: Loop)
    ensures CarefullyReaches(Start, s) && s.phase.Running? && s.batch == [] && s.pending == []
    ensures Has(s, 0, Connection, Open) && s.objects[0].state.Connected?
    ensures s.objects[0].mark == if stopped then I.Mark(I.Deleted, I.NONE_EVENT) else I.Mark(I.Added, I.READ_EVENT)
  {
    ReachesSelf(Start);
    hide CarefullyReaches;
    s := Onward(Start, Create(0, Connection, true));
    assert I.In in s.objects[0].mark.events * I.READ_EVENT;
    if stopped { s := Onward(s, Call(0, StopRead, true)); }
  }

  // forceClose is called, and its functor taken.
  lemma ForcingHappens(stopped: bool) returns (s: Loop)
    ensures CarefullyReaches(Start, s) && s.phase.Running? && s.batch == [Job(0, ForceCloseInLoop)]
    ensures Has(s, 0, Connection, Open) && IsOpen(s.objects[0])
    ensures s.objects[0].mark == if stopped then I.Mark(I.Deleted, I.NONE_EVENT) else I.Mark(I.Added, I.READ_EVENT)
  {
    s := UpHappens(stopped);
    hide CarefullyReaches;
    s := Onward(s, Call(0, ForceClose, true));
    s := Onward(s, EndRun);
    s := Onward(s, Poll([]));
    s := Onward(s, EndDispatch);
  }

  lemma ClosedHappens(stopped: bool) returns (s: Loop)
    ensures CarefullyReaches(Start, s) && s.phase.Running? && s.batch == [] && IsClosed(s, 0)
    ensures s.objects[0].mark.index == if stopped then I.Added else I.Deleted
  {
    s := ForcingHappens(stopped);
    hide CarefullyReaches;
    s := Onward(s, RunOne);
  }

  lemma Reached(s: Loop)
    requires CarefullyReaches(Start, s)
    ensures Inv(s)
  {
    var steps :| CarefulRun(Start, steps) && Possible(Start, steps) && Exec(Start, steps) == s;
    StartHoldsInv();
    RunKeepsInv(Start, steps);
  }

  /** shutdown after the close, then forceClose: the second connectDestroyed removes a channel the poller does not
      know. */
  lemma LateShutdownRemovesTwice() returns (s: Loop)
    ensures CarefullyReaches(Start, s) && Can(s, Call(0, Shutdown, true)) && CanFail(Apply(s, Call(0, Shutdown, true)))
  {
    s := ClosedHappens(false);
    Reached(s);
    CarefulIff(s, Call(0, Shutdown, true));
  }

  /** stopRead, then forceClose: epoll may report the closed connection. */
  lemma SilentCloseIsReported() returns (s: Loop)
    ensures CarefullyReaches(Start, s) && Can(s, Poll([0])) && CanFail(Apply(s, Poll([0])))
  {
    s := ClosedHappens(true);
    s := Onward(s, EndRun);
    Reached(s);
    assert 0 in [0];
    CarefulIff(s, Poll([0]));
  }
}
