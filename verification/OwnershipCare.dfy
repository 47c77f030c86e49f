/** Care is exactly what the server's bookkeeping needs: after a careless step some careful continuation finds an
    assertion broken, as the erase that finds no entry; after a careful one none does. */
module OwnershipCare {
  import opened EventLoopThreadPool
  import opened Ownership

  ghost predicate CarefullyReaches(s: Server, r: Server) {
    exists steps :: CarefulRun(s, steps) && Possible(s, steps) && Exec(s, steps) == r
  }

  ghost predicate CanFail(s: Server) {
    exists r :: CarefullyReaches(s, r) && r.failed
  }

  lemma ReachesSelf(s: Server)
    ensures CarefullyReaches(s, s)
  {
    assert CarefulRun(s, []) && Possible(s, []) && Exec(s, []) == s;
  }

  lemma ReachesVia(s: Server, step: Step, r: Server)
    requires Wide(s) && Can(s, step) && Careful(s, step) && CarefullyReaches(Apply(s, step), r)
    ensures CarefullyReaches(s, r)
  {
    var t := Apply(s, step);
    var steps :| CarefulRun(t, steps) && Possible(t, steps) && Exec(t, steps) == r;
    assert ([step] + steps)[0] == step && ([step] + steps)[1..] == steps;
    assert CarefulRun(s, [step] + steps) && Possible(s, [step] + steps) && Exec(s, [step] + steps) == r;
  }

  // ---- a connection that will be erased twice ----

  function Erasures(s: Server, id: Id): nat
    requires Wide(s)
  {
    multiset(s.loops[BASE_LOOP].queue)[RemoveInLoop(id)]
  }

  /** 2: reopened after its close, with a forced close queued in its loop; if it is still in the table, an erasure is
      queued in the base loop, which is another one. 1: more erasures queued in the base loop than entries to erase. */
  predicate Cursed(s: Server, id: Id, level: nat)
    requires Wide(s)
  {
    match level
    case 1 => Erasures(s, id) >= if id in s.table then 2 else 1
    case 2 =>
      && !PhaseOf(s, id).Up? && !PhaseOf(s, id).Opening? && id in s.reopened
      && Io(s.threads, id) <= s.threads && ForceClose(id) in s.loops[Io(s.threads, id)].queue
      && (id in s.table ==> Io(s.threads, id) != BASE_LOOP && Erasures(s, id) >= 1)
    case _ => false
  }

  function Key(id: Id, level: nat): Job {
    if level == 2 then ForceClose(id) else RemoveInLoop(id)
  }

  // The loop whose turn it is.
  function Turn(s: Server, id: Id, level: nat): LoopId {
    if level == 2 then Io(s.threads, id) else BASE_LOOP
  }

  function Index(queue: seq<Job>, job: Job): nat {
    if queue == [] || queue[0] == job then 0 else 1 + Index(queue[1..], job)
  }

  lemma {:induction false} IndexOfPrefix(a: seq<Job>, b: seq<Job>, job: Job)
    requires job in a
    ensures Index(a + b, job) == Index(a, job)
    decreases |a|
  {
    assert (a + b)[0] == a[0] && (a + b)[1..] == a[1..] + b;
    if a[0] != job { IndexOfPrefix(a[1..], b, job); }
  }

  // ---- what running one functor does to the queues and to a connection ----

  /** Queues only grow at their ends, the table only shrinks, and only two functors matter to one connection. */
  ghost predicate Onwards(s: Server, t: Server, id: Id)
    requires Wide(s)
  {
    && Wide(t) && t.threads == s.threads
    && (forall i | 0 <= i <= s.threads :: s.loops[i].queue <= t.loops[i].queue)
    && (id !in s.table ==> id !in t.table)
  }

  lemma PushOnwards(s: Server, job: Job, id: Id)
    requires Wide(s)
    ensures Onwards(s, Push(s, job), id)
  {
    HomeExists(s.threads, job);
  }

  lemma ErasuresGrow(s: Server, t: Server, id: Id)
    requires Wide(s) && Onwards(s, t, id)
    ensures Erasures(t, id) >= Erasures(s, id)
  {
    var q, r := s.loops[BASE_LOOP].queue, t.loops[BASE_LOOP].queue;
    assert r == q + r[|q|..];
  }

  lemma RemoveOnwards(s: Server, i: Id, id: Id)
    requires Wide(s)
    ensures Onwards(s, Remove(s, i), id) && Remove(s, i).phases == s.phases && Remove(s, i).reopened == s.reopened
    ensures i != id && id in s.table ==> id in Remove(s, i).table
    ensures s.failed || i !in s.table ==> Remove(s, i).failed
  {
    PushOnwards(s.(failed := s.failed || i !in s.table, table := s.table - {i}), Destroy(i), id);
  }

  lemma CloseOnwards(s: Server, i: Id, id: Id)
    requires Wide(s)
    ensures var t := Close(s, i);
      && Onwards(s, t, id)
      && (i != id ==> PhaseOf(t, id) == PhaseOf(s, id) && (id in s.reopened ==> id in t.reopened))
      && (i != id && id in s.table ==> id in t.table)
      && (s.failed ==> t.failed)
      && (Io(s.threads, i) == BASE_LOOP && i !in s.table ==> t.failed)
      && (Io(s.threads, i) != BASE_LOOP ==>
            t.table == s.table && t.loops[BASE_LOOP].queue == s.loops[BASE_LOOP].queue + [RemoveInLoop(i)])
  {
    var u := s.(failed := s.failed || !IsOpen(s, i), reopened := s.reopened - {i});
    var t := if PhaseOf(s, i).Up? then Goes(u, i, Closed) else u.(closed := u.closed + multiset{i});
    if Io(s.threads, i) == BASE_LOOP { RemoveOnwards(t, i, id); } else { PushOnwards(t, RemoveInLoop(i), id); }
  }

  /** A functor other than this connection's forced close and erasure. */
  lemma OtherJob(s: Server, job: Job, id: Id)
    requires Wide(s) && job != ForceClose(id) && job != RemoveInLoop(id)
    ensures var t := Execute(s, job);
      t.failed || (
        && Onwards(s, t, id) && (id in s.table <==> id in t.table)
        && (id in s.reopened ==> id in t.reopened)
        && (!PhaseOf(s, id).Up? && !PhaseOf(s, id).Opening? ==> !PhaseOf(t, id).Up? && !PhaseOf(t, id).Opening?))
  {
    match job
    case RemoveInLoop(i) => RemoveOnwards(s, i, id);
    case ForceClose(i) => if IsOpen(s, i) { CloseOnwards(s, i, id); }
    case _ =>
  }

  lemma TakeHead(s: Server, l: LoopId, id: Id)
    requires Wide(s) && l <= s.threads && s.loops[l].queue != []
    ensures var t, job := Take(s, l), s.loops[l].queue[0];
      && Wide(t) && t.threads == s.threads && t.table == s.table && t.reopened == s.reopened && t.phases == s.phases
      && t.loops[l].queue == s.loops[l].queue[1..]
      && (forall i | 0 <= i <= s.threads && i != l :: t.loops[i] == s.loops[i])
      && Erasures(s, id) == Erasures(t, id) + (if l == BASE_LOOP && job == RemoveInLoop(id) then 1 else 0)
      && (l != Home(s.threads, job) ==> t.failed)
  {
    assert s.loops[l].queue == [s.loops[l].queue[0]] + s.loops[l].queue[1..];
  }

  lemma FailedStays(s: Server, job: Job)
    requires Wide(s) && s.failed
    ensures Execute(s, job).failed
  {
    match job
    case ForceClose(i) => if IsOpen(s, i) { CloseOnwards(s, i, i); }
    case RemoveInLoop(i) => RemoveOnwards(s, i, i);
    case _ =>
  }

  // One functor of the loop whose turn it is.
  lemma CursedStep(s: Server, id: Id, level: nat)
    requires Wide(s) && Cursed(s, id, level)
    requires var l := Turn(s, id, level); l <= s.threads && s.loops[l].queue != []
    ensures var l := Turn(s, id, level);
      var t, job := Execute(Take(s, l), s.loops[l].queue[0]), s.loops[l].queue[0];
      t.failed || (
        && Wide(t) && t.threads == s.threads && s.loops[l].queue[1..] <= t.loops[l].queue
        && (if job != Key(id, level) then Cursed(t, id, level) && (id !in s.table ==> id !in t.table)
            else if level == 2 then Cursed(t, id, 1)
            else Cursed(t, id, 1) && id in s.table && id !in t.table))
  {
    var l := Turn(s, id, level);
    var u, job := Take(s, l), s.loops[l].queue[0];
    TakeHead(s, l, id);
    if u.failed {
      FailedStays(u, job);
    } else if job == ForceClose(id) {
      if IsOpen(u, id) {
        CloseOnwards(u, id, id);
        ErasuresGrow(u, Close(u, id), id);
      }
    } else if job == RemoveInLoop(id) {
      RemoveOnwards(u, id, id);
      ErasuresGrow(u, Remove(u, id), id);
    } else {
      OtherJob(u, job, id);
      var t := Execute(u, job);
      if !t.failed {
        ErasuresGrow(u, t, id);
        assert ForceClose(id) in s.loops[l].queue ==> ForceClose(id) in s.loops[l].queue[1..];
        assert s.loops[l].queue[1..] <= t.loops[l].queue;
      }
    }
  }

  lemma CursedHasKey(s: Server, id: Id, level: nat)
    requires Wide(s) && Cursed(s, id, level)
    ensures Turn(s, id, level) <= s.threads && Key(id, level) in s.loops[Turn(s, id, level)].queue
  {
  }

  lemma EndChangesNothing(s: Server, l: LoopId, id: Id, level: nat)
    requires Wide(s) && l <= s.threads && Cursed(s, id, level)
    ensures var t := Apply(s, End(l));
      Wide(t) && t.threads == s.threads && t.table == s.table && Cursed(t, id, level)
      && (forall i | 0 <= i <= s.threads :: t.loops[i].queue == s.loops[i].queue) && t.loops[l].activity.Idle?
  {
  }

  // The loop finishes what it is doing and runs its next functor.
  lemma Round(s: Server, id: Id, level: nat) returns (t: Server)
    requires Wide(s) && Cursed(s, id, level)
    ensures forall r | CarefullyReaches(t, r) :: CarefullyReaches(s, r)
    ensures var l := Turn(s, id, level);
      && l <= s.threads && Key(id, level) in s.loops[l].queue
      && (t.failed || (
            && Wide(t) && t.threads == s.threads && s.loops[l].queue[1..] <= t.loops[l].queue
            && (if s.loops[l].queue[0] != Key(id, level)
                then Cursed(t, id, level) && (id !in s.table ==> id !in t.table)
                else if level == 2 then Cursed(t, id, 1)
                else Cursed(t, id, 1) && id in s.table && id !in t.table)))
  {
    CursedHasKey(s, id, level);
    var l := Turn(s, id, level);
    EndChangesNothing(s, l, id, level);
    var u := Apply(s, End(l));
    t := Apply(u, StartJob(l));
    CursedStep(u, id, level);
    forall r | CarefullyReaches(t, r) ensures CarefullyReaches(s, r) {
      ReachesVia(u, StartJob(l), r);
      ReachesVia(s, End(l), r);
    }
  }

  lemma IndexFalls(queue: seq<Job>, later: seq<Job>, key: Job)
    requires key in queue && queue[0] != key && queue[1..] <= later
    ensures Index(later, key) < Index(queue, key)
  {
    assert queue == [queue[0]] + queue[1..] && key in queue[1..];
    assert later == queue[1..] + later[|queue| - 1..];
    IndexOfPrefix(queue[1..], later[|queue| - 1..], key);
  }

  function Distance(s: Server, id: Id, level: nat): nat
    requires Wide(s)
  {
    var l := Turn(s, id, level);
    if l <= s.threads then Index(s.loops[l].queue, Key(id, level)) else 0
  }

  lemma {:induction false} CursedFails(s: Server, id: Id, level: nat) returns (r: Server)
    requires Wide(s) && Cursed(s, id, level)
    ensures CarefullyReaches(s, r) && r.failed
    decreases level, if id in s.table then 1 else 0, Distance(s, id, level)
  {
    var t := Round(s, id, level);
    var l := Turn(s, id, level);
    hide CarefullyReaches;
    if t.failed {
      r := t;
      ReachesSelf(r);
    } else if s.loops[l].queue[0] == Key(id, level) {
      r := CursedFails(t, id, 1);
    } else {
      IndexFalls(s.loops[l].queue, t.loops[l].queue, Key(id, level));
      r := CursedFails(t, id, level);
    }
  }

  // ---- careless steps ----

  // shutdown reopens the closed connection; forceClose is all it takes then.
  lemma CarelessShutdown(s: Server, id: Id) returns (r: Server)
    requires Inv(s) && Can(s, AskShutdown(id)) && !Careful(s, AskShutdown(id))
    ensures CarefullyReaches(Apply(s, AskShutdown(id)), r) && r.failed
  {
    var t := Apply(s, AskShutdown(id));
    var u := Apply(t, AskForceClose(id));
    RegularAt(s, id);
    HomeExists(s.threads, ForceClose(id));
    PushOnwards(t, ForceClose(id), id);
    assert Erasures(u, id) >= Erasures(t, id) by { ErasuresGrow(t, u, id); }
    if id in s.table { ListedElsewhere(s, id); }
    r := CursedFails(u, id, 2);
    ReachesVia(t, AskForceClose(id), r);
  }

  // A closed connection that is still in the table waits for its erasure in the base loop, which is not its own.
  lemma ListedElsewhere(s: Server, id: Id)
    requires Inv(s) && id in s.table && PhaseOf(s, id).Closed?
    ensures Io(s.threads, id) != BASE_LOOP && Erasures(s, id) >= 1
  {
    RegularAt(s, id);
    assert RemoveInLoop(id) in s.loops[BASE_LOOP].queue;
  }

  // A closed connection is handled: it hangs up, and is not open.
  lemma CarelessEvent(s: Server, l: LoopId, id: Id) returns (r: Server)
    requires Inv(s) && Can(s, StartEvent(l, id)) && !Careful(s, StartEvent(l, id))
    ensures CarefullyReaches(Apply(s, StartEvent(l, id)), r) && r.failed
  {
    var t := Apply(s, StartEvent(l, id));
    r := Apply(t, CloseInEvent(l));
    CloseOnwards(Busy(t, l, Handling(id, true)), id, id);
    ReachesSelf(r);
    ReachesVia(t, CloseInEvent(l), r);
  }

  // ---- exactly ----

  /** Care is exact: a step is careful if and only if no careful continuation breaks an assertion: a close of a
      connection that is not open, an erase that finds no entry, a connectDestroyed that comes twice. */
  lemma CarefulIff(s: Server, step: Step)
    requires Inv(s) && Can(s, step)
    ensures Careful(s, step) <==> !CanFail(Apply(s, step))
  {
    if Careful(s, step) {
      StepKeepsInv(s, step);
      forall r | CarefullyReaches(Apply(s, step), r) ensures !r.failed {
        var t := Apply(s, step);
        var steps :| CarefulRun(t, steps) && Possible(t, steps) && Exec(t, steps) == r;
        RunKeepsInv(t, steps);
      }
    } else if step.AskShutdown? {
      var r := CarelessShutdown(s, step.id);
    } else {
      var r := CarelessEvent(s, step.l, step.id);
    }
  }

  // ---- it happens ----

  lemma {:induction false} ReachesAlong(s: Server, steps: seq<Step>, r: Server)
    requires CarefulRun(s, steps) && Possible(s, steps) && CarefullyReaches(Exec(s, steps), r)
    ensures CarefullyReaches(s, r)
    decreases |steps|
  {
    if steps != [] {
      ReachesAlong(Apply(s, steps[0]), steps[1..], r);
      ReachesVia(s, steps[0], r);
    }
  }

  lemma Onward(s: Server, step: Step) returns (t: Server)
    requires CarefullyReaches(Fresh(0), s) && Wide(s) && Can(s, step) && Careful(s, step)
    ensures CarefullyReaches(Fresh(0), t) && t == Apply(s, step)
  {
    t := Apply(s, step);
    ReachesSelf(t);
    ReachesVia(s, step, t);
    var steps :| CarefulRun(Fresh(0), steps) && Possible(Fresh(0), steps) && Exec(Fresh(0), steps) == s;
    ReachesAlong(Fresh(0), steps, t);
  }

  /** A connection is accepted and closed by force; shutdown can be called on it then, and leads to a failure. */
  lemma LateShutdownFails() returns (s: Server)
    ensures CarefullyReaches(Fresh(0), s) && Wide(s) && PhaseOf(s, 1).Closed?
    ensures Can(s, AskShutdown(1)) && CanFail(Apply(s, AskShutdown(1)))
  {
    ReachesSelf(Fresh(0));
    s := Fresh(0);
    hide CarefullyReaches;
    s := Onward(s, Accept);
    assert PhaseOf(s, 1).Up?;
    s := Onward(s, AskForceClose(1));
    assert s.loops[0].queue == [ForceClose(1)];
    s := Onward(s, StartJob(0));
    Reached(s);
    CarefulIff(s, AskShutdown(1));
  }

  lemma Reached(s: Server)
    requires CarefullyReaches(Fresh(0), s)
    ensures Inv(s)
  {
    var steps :| CarefulRun(Fresh(0), steps) && Possible(Fresh(0), steps) && Exec(Fresh(0), steps) == s;
    FreshHoldsInv(0);
    RunKeepsInv(Fresh(0), steps);
  }
}
