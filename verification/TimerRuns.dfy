/** Every run of a timer queue: operations in the loop thread, queued additions arriving, and batches of
    callbacks, with the log of every callback that ran. */
module TimerRuns {
  import opened TimerSpec

  /** Timer `id` ran when handleRead's clock said `at`; `info` was its entry then. */
  datatype Record = Record(id: Id, info: Info, at: int)

  datatype Run = Run(timers: Timers, log: seq<Record>)

  datatype Action =
    | Do(op: Op)                       // outside handleRead
    | Adopt(id: Id)                    // a queued addTimerInLoop reaches the loop
    | Fire(now: int, ops: seq<Op>)     // handleRead, with everything its callbacks do

  const Start := Run(Empty, [])

  ghost predicate Allowed(t: Timers, a: Action) {
    match a
    case Do(op) => Legal(t, op)
    case Adopt(id) => id in t.awaiting
    case Fire(now, ops) => LegalAll(Take(t, now), ops)
  }

  function Arrive(t: Timers, id: Id): Timers
    requires id in t.awaiting
  {
    t.(awaiting := t.awaiting - {id}, live := t.live[id := t.awaiting[id]])
  }

  ghost function Step(r: Run, a: Action): Run
    requires Inv(r.timers) && Allowed(r.timers, a)
  {
    match a
    case Do(op) => r.(timers := Apply(r.timers, op))
    case Adopt(id) => r.(timers := Arrive(r.timers, id))
    case Fire(now, ops) =>
      Run(HandleRead(r.timers, now, ops), Logged(r.log, r.timers.live, DueOrder(r.timers.live, now), now))
  }

  ghost function Logged(log: seq<Record>, m: map<Id, Info>, order: seq<Id>, now: int): seq<Record>
    requires forall id <- order :: id in m
    decreases |order|
  {
    if order == [] then log else Logged(log + [Record(order[0], m[order[0]], now)], m, order[1..], now)
  }

  ghost predicate Possible(r: Run, actions: seq<Action>)
    decreases |actions|
  {
    actions != [] ==>
      && Inv(r.timers) && Allowed(r.timers, actions[0])
      && Possible(Step(r, actions[0]), actions[1..])
  }

  ghost function Exec(r: Run, actions: seq<Action>): Run
    requires Possible(r, actions)
    decreases |actions|
  {
    if actions == [] then r else Exec(Step(r, actions[0]), actions[1..])
  }

  // ---- the log ----

  function LastRun(log: seq<Record>, id: Id): (i: int)
    ensures -1 <= i < |log|
    ensures i >= 0 ==> log[i].id == id
  {
    if log == [] then -1
    else if log[|log| - 1].id == id then |log| - 1
    else LastRun(log[..|log| - 1], id)
  }

  function Runs(log: seq<Record>, id: Id): nat {
    if log == [] then 0
    else Runs(log[..|log| - 1], id) + if log[|log| - 1].id == id then 1 else 0
  }

  // `info` is what a timer that last ran as `last` is rescheduled to.
  predicate Follows(last: Record, info: Info) {
    last.info.Repeat() && info == Info(last.at + last.info.interval, last.info.interval)
  }

  /** No callback is early, and each run of a timer follows its previous run. */
  ghost predicate Spaced(log: seq<Record>) {
    forall j | 0 <= j < |log| ::
      && log[j].info.expiration <= log[j].at
      && (LastRun(log[..j], log[j].id) >= 0 ==> Follows(log[LastRun(log[..j], log[j].id)], log[j].info))
  }

  ghost predicate Linked(log: seq<Record>, m: map<Id, Info>) {
    forall id | id in m && LastRun(log, id) >= 0 :: Follows(log[LastRun(log, id)], m[id])
  }

  ghost predicate RunInv(r: Run) {
    && Inv(r.timers) && !r.timers.calling
    && Spaced(r.log)
    && Linked(r.log, r.timers.live)
    && (forall id: Id | id.sequence > r.timers.created || id in r.timers.awaiting :: LastRun(r.log, id) == -1)
  }

  lemma LastRunAfter(log: seq<Record>, rec: Record, id: Id)
    ensures LastRun(log + [rec], id) == if id == rec.id then |log| else LastRun(log, id)
    ensures Runs(log + [rec], id) == Runs(log, id) + if id == rec.id then 1 else 0
  {
    assert (log + [rec])[..|log|] == log;
  }

  lemma LogOne(log: seq<Record>, rec: Record, m: map<Id, Info>)
    requires Spaced(log) && Linked(log, m)
    requires rec.id in m && rec.info == m[rec.id] && rec.info.expiration <= rec.at
    ensures Spaced(log + [rec]) && Linked(log + [rec], m - {rec.id})
  {
    hide LastRun, Follows;
    var after := log + [rec];
    forall j | 0 <= j < |after|
      ensures after[j].info.expiration <= after[j].at
      ensures LastRun(after[..j], after[j].id) >= 0 ==> Follows(after[LastRun(after[..j], after[j].id)], after[j].info)
    {
      assert after[..j] == log[..j];
      if j == |log| { assert log[..j] == log; }
    }
    forall id | id in m - {rec.id} && LastRun(after, id) >= 0 ensures Follows(after[LastRun(after, id)], m[id]) {
      LastRunAfter(log, rec, id);
    }
  }

  lemma {:induction false} LoggedKeepsSpacing(log: seq<Record>, m: map<Id, Info>, rest: map<Id, Info>,
    order: seq<Id>, now: int)
    requires Spaced(log) && Linked(log, rest) && IsDueOrder(rest, now, order)
    requires forall id <- rest :: id in m && m[id] == rest[id]
    requires forall id <- order :: id in m
    ensures Spaced(Logged(log, m, order, now))
    ensures Linked(Logged(log, m, order, now), rest - (set id | id in order))
    decreases |order|
  {
    if order == [] {
      assert rest - (set id | id in order) == rest;
    } else {
      var first, tail := order[0], order[1..];
      assert first in order && Due(rest, now, first);
      LogOne(log, Record(first, m[first], now), rest);
      DueOrderTail(rest, now, order);
      LoggedKeepsSpacing(log + [Record(first, m[first], now)], m, rest - {first}, tail, now);
      assert forall id :: id in order <==> id == first || id in tail;
      assert (rest - {first}) - (set id | id in tail) == rest - (set id | id in order);
    }
  }

  ghost predicate OnceEach(order: seq<Id>) {
    forall i, j | 0 <= i < j < |order| :: order[i] != order[j]
  }

  lemma {:induction false} LoggedOnceEach(log: seq<Record>, m: map<Id, Info>, order: seq<Id>, now: int, id: Id)
    requires (forall x <- order :: x in m) && OnceEach(order)
    ensures var after := Logged(log, m, order, now);
      && Runs(after, id) == Runs(log, id) + (if id in order then 1 else 0)
      && |log| <= |after| && after[..|log|] == log
      && (if id in order then LastRun(after, id) >= 0 && after[LastRun(after, id)] == Record(id, m[id], now)
          else LastRun(after, id) == LastRun(log, id))
    decreases |order|
  {
    if order != [] {
      var rec := Record(order[0], m[order[0]], now);
      var mid := log + [rec];
      LastRunAfter(log, rec, id);
      LoggedOnceEach(mid, m, order[1..], now, id);
      assert id in order <==> id == order[0] || id in order[1..];
      assert order[0] !in order[1..];
      var after := Logged(mid, m, order[1..], now);
      assert after[..|log|] == after[..|mid|][..|log|] == log;
      assert id == order[0] ==> LastRun(mid, id) == |log| && after[|log|] == mid[|log|];
    }
  }

  // ---- every run ----

  /** The log after a batch: every due timer ran once more, no other timer ran. */
  lemma FireRuns(r: Run, now: int, ops: seq<Op>, id: Id)
    requires RunInv(r) && Allowed(r.timers, Fire(now, ops))
    ensures var log := Step(r, Fire(now, ops)).log;
      && Runs(log, id) == Runs(r.log, id) + (if Due(r.timers.live, now, id) then 1 else 0)
      && |r.log| <= |log| && log[..|r.log|] == r.log
      && (if Due(r.timers.live, now, id) then LastRun(log, id) >= 0
          && log[LastRun(log, id)] == Record(id, r.timers.live[id], now)
          else LastRun(log, id) == LastRun(r.log, id))
  {
    var order := DueOrder(r.timers.live, now);
    assert OnceEach(order);
    LoggedOnceEach(r.log, r.timers.live, order, now, id);
  }

  lemma FireLinks(r: Run, now: int, ops: seq<Op>, id: Id)
    requires RunInv(r) && Allowed(r.timers, Fire(now, ops))
    ensures var after := Step(r, Fire(now, ops));
      && (id in after.timers.live && LastRun(after.log, id) >= 0 ==>
            Follows(after.log[LastRun(after.log, id)], after.timers.live[id]))
      && (id.sequence > after.timers.created || id in after.timers.awaiting ==> LastRun(after.log, id) == -1)
  {
    var t, after := r.timers, Step(r, Fire(now, ops));
    FireRuns(r, now, ops, id);
    HandleReadKeepsInv(t, now, ops);
    if id.sequence <= t.created {
      HandleReadOutcome(t, now, ops, id);
      HandleReadAwaiting(t, now, ops, id);
      if !Due(t.live, now, id) && LastRun(r.log, id) >= 0 {
        assert after.log[LastRun(r.log, id)] == after.log[..|r.log|][LastRun(r.log, id)];
      }
    }
  }

  lemma FireKeepsInv(r: Run, now: int, ops: seq<Op>)
    requires RunInv(r) && Allowed(r.timers, Fire(now, ops))
    ensures RunInv(Step(r, Fire(now, ops)))
  {
    HandleReadKeepsInv(r.timers, now, ops);
    LoggedKeepsSpacing(r.log, r.timers.live, r.timers.live, DueOrder(r.timers.live, now), now);
    forall id { FireLinks(r, now, ops, id); }
  }

  lemma HandleReadKeepsInv(t: Timers, now: int, ops: seq<Op>)
    requires Inv(t) && !t.calling && LegalAll(Take(t, now), ops)
    ensures Inv(HandleRead(t, now, ops)) && !HandleRead(t, now, ops).calling
    ensures t.created <= HandleRead(t, now, ops).created
  {
    TakeKeepsInv(t, now);
    ApplyAllKeepsInv(Take(t, now), ops);
    FinishKeepsInv(ApplyAll(Take(t, now), ops), now);
  }

  lemma HandleReadAwaiting(t: Timers, now: int, ops: seq<Op>, id: Id)
    requires Inv(t) && !t.calling && LegalAll(Take(t, now), ops) && id.sequence <= t.created
    ensures id in HandleRead(t, now, ops).awaiting <==> id in t.awaiting
  {
    TakeKeepsInv(t, now);
    IssuedThroughOps(Take(t, now), ops, id);
  }

  lemma DoKeepsInv(r: Run, op: Op)
    requires RunInv(r) && Allowed(r.timers, Do(op))
    ensures RunInv(Step(r, Do(op)))
  {
    ApplyKeepsInv(r.timers, op);
  }

  lemma ArriveKeepsInv(t: Timers, id: Id)
    requires Inv(t) && id in t.awaiting
    ensures Inv(Arrive(t, id)) && Known(Arrive(t, id)) == Known(t)
  {
    assert Known(Arrive(t, id)) == Known(t);
  }

  lemma AdoptKeepsInv(r: Run, id: Id)
    requires RunInv(r) && Allowed(r.timers, Adopt(id))
    ensures RunInv(Step(r, Adopt(id)))
  {
    ArriveKeepsInv(r.timers, id);
    assert LastRun(r.log, id) == -1;
  }

  lemma StepKeepsInv(r: Run, a: Action)
    requires RunInv(r) && Allowed(r.timers, a)
    ensures RunInv(Step(r, a))
  {
    match a
    case Do(op) => DoKeepsInv(r, op);
    case Adopt(id) => AdoptKeepsInv(r, id);
    case Fire(now, ops) => FireKeepsInv(r, now, ops);
  }

  /** In every run: no callback is early, a timer runs again only if it repeats, and each run of a repeating
      timer is at least its interval after the one before it. */
  lemma {:induction false} RunsKeepTime(r: Run, actions: seq<Action>)
    requires RunInv(r) && Possible(r, actions)
    ensures RunInv(Exec(r, actions))
    ensures forall j | 0 <= j < |Exec(r, actions).log| ::
              var log := Exec(r, actions).log;
              var i := LastRun(log[..j], log[j].id);
              && log[j].info.expiration <= log[j].at
              && (i >= 0 ==> log[i].info.Repeat() && log[i].at + log[i].info.interval <= log[j].at)
    decreases |actions|
  {
    if actions != [] {
      StepKeepsInv(r, actions[0]);
      RunsKeepTime(Step(r, actions[0]), actions[1..]);
    }
  }

  // ---- cancellation ----

  // Timer `id` was issued and is nowhere any more.
  ghost predicate Gone(t: Timers, id: Id) {
    id.sequence <= t.created && id !in Known(t)
  }

  lemma GoneStaysGone(r: Run, a: Action, id: Id)
    requires RunInv(r) && Allowed(r.timers, a) && Gone(r.timers, id)
    ensures Gone(Step(r, a).timers, id) && Runs(Step(r, a).log, id) == Runs(r.log, id)
  {
    if a.Fire? {
      FireRuns(r, a.now, a.ops, id);
      HandleReadOutcome(r.timers, a.now, a.ops, id);
      HandleReadAwaiting(r.timers, a.now, a.ops, id);
      HandleReadKeepsInv(r.timers, a.now, a.ops);
    }
  }

  lemma {:induction false} GoneNeverRuns(r: Run, actions: seq<Action>, id: Id)
    requires RunInv(r) && Possible(r, actions) && Gone(r.timers, id)
    ensures Runs(Exec(r, actions).log, id) == Runs(r.log, id)
    decreases |actions|
  {
    if actions != [] {
      GoneStaysGone(r, actions[0], id);
      StepKeepsInv(r, actions[0]);
      GoneNeverRuns(Step(r, actions[0]), actions[1..], id);
    }
  }

  ghost predicate NeverRunsAgain(r: Run, id: Id) {
    forall actions | Possible(r, actions) :: Runs(Exec(r, actions).log, id) == Runs(r.log, id)
  }

  /** Canceling an issued timer between batches is final exactly when its addition is not still queued:
      cancelInLoop does not find a timer that is only awaiting, and drops the request. */
  lemma CancelIsFinal(r: Run, id: Id)
    requires RunInv(r) && id.sequence <= r.timers.created
    ensures NeverRunsAgain(Step(r, Do(Cancel(id))), id) <==> id !in r.timers.awaiting
  {
    var after := Step(r, Do(Cancel(id)));
    StepKeepsInv(r, Do(Cancel(id)));
    if id !in r.timers.awaiting {
      forall actions | Possible(after, actions) ensures Runs(Exec(after, actions).log, id) == Runs(after.log, id) {
        GoneNeverRuns(after, actions, id);
      }
    } else {
      AwaitingCanRun(after, id);
    }
  }

  lemma ConsStep(r: Run, a: Action, rest: seq<Action>)
    requires RunInv(r) && Allowed(r.timers, a) && Possible(Step(r, a), rest)
    ensures Possible(r, [a] + rest) && Exec(r, [a] + rest) == Exec(Step(r, a), rest)
  {
    assert ([a] + rest)[0] == a && ([a] + rest)[1..] == rest;
  }

  lemma AwaitingCanRun(r: Run, id: Id)
    requires RunInv(r) && id in r.timers.awaiting
    ensures !NeverRunsAgain(r, id)
  {
    AdoptKeepsInv(r, id);
    var mid := Step(r, Adopt(id));
    var now := mid.timers.live[id].expiration;
    FireRuns(mid, now, [], id);
    assert Due(mid.timers.live, now, id);
    ConsStep(mid, Fire(now, []), []);
    ConsStep(r, Adopt(id), [Fire(now, [])] + []);
  }

  /** The same from inside a callback: a timer canceled during a batch, its own callback included, is in
      no later batch, again unless its addition was still queued. In the batch already taken it may run. */
  lemma CancelInCallbackIsFinal(r: Run, now: int, ops: seq<Op>, k: nat, id: Id)
    requires RunInv(r) && Allowed(r.timers, Fire(now, ops))
    requires k < |ops| && ops[k] == Cancel(id)
    requires id.sequence <= ApplyAll(Take(r.timers, now), ops[..k]).created
    ensures NeverRunsAgain(Step(r, Fire(now, ops)), id) <==> id !in ApplyAll(Take(r.timers, now), ops[..k]).awaiting
    ensures Runs(Step(r, Fire(now, ops)).log, id) <= Runs(r.log, id) + 1
  {
    var after := Step(r, Fire(now, ops));
    FireKeepsInv(r, now, ops);
    FireRuns(r, now, ops, id);
    CanceledInCallback(r.timers, now, ops, k, id);
    if id !in ApplyAll(Take(r.timers, now), ops[..k]).awaiting {
      forall actions | Possible(after, actions) ensures Runs(Exec(after, actions).log, id) == Runs(after.log, id) {
        GoneNeverRuns(after, actions, id);
      }
    } else {
      AwaitingCanRun(after, id);
    }
  }

  lemma CanceledInCallback(t: Timers, now: int, ops: seq<Op>, k: nat, id: Id)
    requires Inv(t) && !t.calling && LegalAll(Take(t, now), ops)
    requires k < |ops| && ops[k] == Cancel(id)
    requires id.sequence <= ApplyAll(Take(t, now), ops[..k]).created
    ensures var waiting := id in ApplyAll(Take(t, now), ops[..k]).awaiting;
            if waiting then id in HandleRead(t, now, ops).awaiting else Gone(HandleRead(t, now, ops), id)
  {
    var u := Take(t, now);
    var mid := ApplyAll(u, ops[..k]);
    TakeKeepsInv(t, now);
    assert ops == ops[..k] + ops[k..];
    ApplyAllConcat(u, ops[..k], ops[k..]);
    ApplyAllKeepsInv(u, ops[..k]);
    ApplyAllKeepsInv(mid, ops[k..]);
    IssuedThroughOps(mid, ops[k..], id);
    assert ops[k..][0] == Cancel(id);
    if id !in mid.live && id in mid.batch {
      assert id in ApplyAll(u, ops).canceled;
    }
  }
}
