/** TimerQueue as it is written: two ordered sets over one heap of timers, one timerfd, and callbacks that
    add and cancel timers while a batch is running. */
module TimerQueue {
  import opened TimerSpec
  import opened TimerRuns
  import opened OrderedEntries
  import opened TimerIndex

  /** One-shot kernel timer: readable from `deadline` on, until it is read or set again. */
  datatype Timerfd = Disarmed | Armed(deadline: int, setAt: int)

  function Max(x: int, y: int): int {
    if x < y then y else x
  }

  /** The callbacks of positions i..n of a batch, laid end to end. */
  function Flatten(script: nat -> seq<Op>, i: nat, n: nat): seq<Op>
    requires i <= n
    decreases n - i
  {
    if i == n then [] else script(i) + Flatten(script, i + 1, n)
  }

  predicate Covers(timerfd: Timerfd, timers: seq<Entry>, limit: int) {
    timers != [] && timers[0].when <= limit ==>
      timerfd.Armed? && timerfd.deadline <= Max(timers[0].when, timerfd.setAt + 100)
  }

  // The earliest expiration is as before, or the timerfd has just been set for it.
  lemma StillCovers(fd: Timerfd, timers: seq<Entry>, later: Timerfd, more: seq<Entry>)
    requires more != []
    requires (later == fd && timers != [] && more[0].when == timers[0].when) ||
             (later.Armed? && later.deadline == Max(more[0].when, later.setAt + 100))
    ensures forall limit | Covers(fd, timers, limit) :: Covers(later, more, limit)
  {
  }

  class TimerQueue {
    var heap: map<Addr, Timer>
    var timers: seq<Entry>
    var activeTimers: set<Id>
    var cancelingTimers: set<Id>
    var callingExpiredTimers: bool
    var numCreated: nat
    var timerfd: Timerfd
    var clock: int
    ghost var awaiting: set<Id>   // bound in addTimerInLoop functors that have not run
    ghost var taken: set<Id>      // in handleRead's expired vector

    ghost function Contents(): Memory
      reads this
    {
      Memory(heap, timers, activeTimers, cancelingTimers, callingExpiredTimers, awaiting, taken, numCreated)
    }

    /** Holds throughout, also while callbacks run: the indexes agree and each timer has one owner. */
    ghost predicate Consistent()
      reads this
    {
      Good(Contents()) && clock > 0 && (timerfd.Armed? ==> timerfd.setAt <= clock)
    }

    ghost function Model(): Timers
      reads this
      requires Consistent()
    {
      Queue(Contents())
    }

    /** The timerfd takes care of the earliest timer, at least when that one is due by `limit`. */
    ghost predicate Covered(limit: int)
      reads this`timers, this`timerfd
    {
      Covers(timerfd, timers, limit)
    }

    /** The timerfd was set just now, for the earliest timer; with none, or with an invalid expiration, it is as it
        was. */
    ghost predicate SetForTheEarliest(before: Timerfd)
      reads this
    {
      if timers != [] && timers[0].when > 0 then timerfd == Armed(Max(timers[0].when, clock + 100), clock)
      else timerfd == before
    }

    /** Holds outside handleRead. */
    ghost predicate Valid()
      reads this
    {
      Consistent() && !callingExpiredTimers && taken == {} && forall limit :: Covered(limit)
    }

    constructor ()
      ensures Valid() && Model() == Empty
    {
      heap, timers, activeTimers, cancelingTimers := map[], [], {}, {};
      callingExpiredTimers, numCreated := false, 0;
      timerfd, clock := Disarmed, 1;
      awaiting, taken := {}, {};
    }

    /** A timer that is due makes the timerfd readable: at once, or within 100 us of the last setting. */
    lemma DueIsReadable(id: Id)
      requires Valid() && id in Model().live && Model().live[id].expiration <= clock
      ensures timerfd.Armed? && timerfd.deadline <= Max(clock, timerfd.setAt + 100) <= clock + 100
    {
      var e := Entry(heap[id.addr].expiration, id.addr);
      assert e in timers && timers[0].when <= e.when;
      assert Covered(clock);
    }

    // Timestamp::now(), read `elapsed` after the previous reading.
    method Now(elapsed: nat) returns (now: int)
      modifies this`clock
      ensures now == clock == old(clock) + elapsed
    {
      clock := clock + elapsed;
      now := clock;
    }

    // The delay is cut off below at 100 microseconds.
    method ResetTimerfd(expiration: int, elapsed: nat)
      modifies this`clock, this`timerfd
      ensures clock == old(clock) + elapsed
      ensures timerfd == Armed(Max(expiration, clock + 100), clock)
    {
      var now := Now(elapsed);
      var microseconds := expiration - now;
      if microseconds < 100 {
        microseconds := 100;
      }
      timerfd := Armed(now + microseconds, now);
    }

    // Reading takes the expiry; with none pending the descriptor would block and nothing changes.
    method ReadTimerfd()
      modifies this`timerfd
      ensures timerfd == if old(timerfd).Armed? && old(timerfd).deadline <= clock then Disarmed else old(timerfd)
    {
      if timerfd.Armed? && timerfd.deadline <= clock {
        timerfd := Disarmed;
      }
    }

    /** `new Timer` at an address the allocator has free; a functor holds it until addTimerInLoop runs. */
    method New(addr: Addr, when: int, interval: int) returns (id: Id)
      requires Consistent() && addr !in heap
      modifies this`heap, this`numCreated, this`awaiting
      ensures Consistent() && id == Id(addr, old(numCreated) + 1)
      ensures Contents() == Allocate(old(Contents()), addr, when, interval) && heap[id.addr].expiration == when
      ensures Model() == Apply(old(Model()), AddElsewhere(addr, when, interval))
    {
      hide Good, Queue;
      AllocateRefines(Contents(), addr, when, interval);
      numCreated := numCreated + 1;
      id := Id(addr, numCreated);
      heap := heap[addr := Timer(when, interval, numCreated)];
      awaiting := awaiting + {id};
      assert Contents() == Allocate(old(Contents()), addr, when, interval);
    }

    /** insert: both sets gain the timer; the result says whether the earliest expiration changed. */
    method Insert(id: Id) returns (earliestChanged: bool)
      requires Consistent() && id in awaiting + taken
      modifies this`timers, this`activeTimers, this`awaiting, this`taken
      ensures Consistent() && Contents() == Index(old(Contents()), id)
      ensures earliestChanged <==> old(timers) == [] || heap[id.addr].expiration < old(timers)[0].when
      ensures timers != [] && (if earliestChanged then timers[0].when == heap[id.addr].expiration
                               else timers[0].when == old(timers)[0].when)
    {
      hide Good, Queue, Covered, OrderedEntries.LowerBound, OrderedEntries.Insert;
      GoodFacts(Contents());
      IndexKeepsGood(Contents(), id);
      var timer := heap[id.addr];
      earliestChanged := timers == [] || timer.expiration < timers[0].when;
      var entry := Entry(timer.expiration, id.addr);
      assert entry !in timers;
      timers := OrderedEntries.Insert(timers, entry);
      assert id !in activeTimers;
      activeTimers := activeTimers + {id};
      awaiting, taken := awaiting - {id}, taken - {id};
    }

    /** The queued half of addTimer. */
    method AddTimerInLoop(id: Id, elapsed: nat)
      requires Consistent() && id in awaiting
      modifies this`timers, this`activeTimers, this`awaiting, this`taken, this`clock, this`timerfd
      ensures Consistent() && taken == old(taken)
      ensures Model() == Arrive(old(Model()), id)
      ensures forall limit | old(Covered(limit)) :: Covered(limit)
      ensures old(clock) <= clock && heap == old(heap)
      ensures if old(timers) == [] || heap[id.addr].expiration < old(timers)[0].when
              then timerfd == Armed(Max(heap[id.addr].expiration, clock + 100), clock) && clock == old(clock) + elapsed
              else timerfd == old(timerfd) && clock == old(clock)
    {
      IndexRefines(Contents(), id);
      hide Good, Queue, Arrive, Index, OrderedEntries.Insert, Increasing, Covers;
      ghost var fd, before := timerfd, timers;
      var earliestChanged := Insert(id);
      if earliestChanged {
        ResetTimerfd(timers[0].when, elapsed);
      }
      StillCovers(fd, before, timerfd, timers);
    }

    /** addTimer from the loop thread: runInLoop runs addTimerInLoop at once. */
    method AddTimer(addr: Addr, when: int, interval: int, elapsed: nat) returns (id: Id)
      requires Consistent() && addr !in heap
      modifies this
      ensures Consistent() && taken == old(taken) && callingExpiredTimers == old(callingExpiredTimers)
      ensures id == NewId(old(Model()), Add(addr, when, interval, elapsed))
      ensures Model() == Apply(old(Model()), Add(addr, when, interval, elapsed))
      ensures forall limit | old(Covered(limit)) :: Covered(limit)
      ensures old(clock) <= clock
      ensures timerfd == if old(timers) == [] || when < old(timers)[0].when then Armed(Max(when, clock + 100), clock)
                         else old(timerfd)
    {
      hide Good, Queue, Apply, Arrive, Covers, Increasing, OrderedEntries.Insert;
      AllocatedIsNew(Contents(), addr);
      ArriveAtOnce(Model(), addr, when, interval, elapsed);
      id := New(addr, when, interval);
      assert id in awaiting;
      AddTimerInLoop(id, elapsed);
    }

    /** cancelInLoop: an id is matched by address and sequence number before the timer is touched. */
    method CancelInLoop(id: Id)
      requires Consistent()
      modifies this`heap, this`timers, this`activeTimers, this`cancelingTimers
      ensures Consistent()
      ensures Model() == Apply(old(Model()), Cancel(id))
      ensures forall limit | old(Covered(limit)) :: Covered(limit)
    {
      hide Good;
      GoodFacts(Contents());
      if id in activeTimers {
        DiscardRefines(Contents(), id);
        var entry := Entry(heap[id.addr].expiration, id.addr);
        assert entry in timers;
        timers := Erase(timers, entry);
        heap := heap - {id.addr};
        activeTimers := activeTimers - {id};
      } else if callingExpiredTimers {
        RememberRefines(Contents(), id);
        cancelingTimers := cancelingTimers + {id};
      }
    }

    /** One callback: whatever it adds and cancels, in order. */
    method RunCallback(ops: seq<Op>)
      requires Consistent() && LegalAll(Model(), ops)
      modifies this
      ensures Consistent() && taken == old(taken) && callingExpiredTimers == old(callingExpiredTimers)
      ensures Model() == ApplyAll(old(Model()), ops)
      ensures forall limit | old(Covered(limit)) :: Covered(limit)
      ensures old(clock) <= clock
    {
      hide Good, Queue, Apply;
      var i := 0;
      while i < |ops|
        invariant 0 <= i <= |ops|
        invariant Consistent() && taken == old(taken) && callingExpiredTimers == old(callingExpiredTimers)
        invariant LegalAll(Model(), ops[i..]) && ApplyAll(Model(), ops[i..]) == ApplyAll(old(Model()), ops)
        invariant forall limit | old(Covered(limit)) :: Covered(limit)
        invariant old(clock) <= clock
      {
        assert ops[i..][0] == ops[i] && ops[i..][1..] == ops[i + 1..];
        RunOp(ops[i]);
        i := i + 1;
      }
    }

    method RunOp(op: Op)
      requires Consistent() && Legal(Model(), op)
      modifies this
      ensures Consistent() && taken == old(taken) && callingExpiredTimers == old(callingExpiredTimers)
      ensures Model() == Apply(old(Model()), op)
      ensures forall limit | old(Covered(limit)) :: Covered(limit)
      ensures old(clock) <= clock
    {
      hide Good, Queue, Apply;
      match op {
        case Add(addr, when, interval, elapsed) =>
          LegalAddress(Contents(), op);
          var _ := AddTimer(addr, when, interval, elapsed);
        case AddElsewhere(addr, when, interval) =>
          LegalAddress(Contents(), op);
          var _ := New(addr, when, interval);
        case Cancel(id) =>
          CancelInLoop(id);
      }
    }

    /** getExpired: the entries up to the sentry leave both sets. */
    method GetExpired(now: int) returns (expired: seq<Entry>)
      requires Consistent() && taken == {} && !callingExpiredTimers
      modifies this`timers, this`activeTimers, this`taken
      ensures Consistent() && Contents() == Expire(old(Contents()), now)
      ensures forall e <- expired :: 0 <= e.addr < UINTPTR_MAX && e.addr in heap
      ensures IdsOf(heap, expired) == Expired(old(Contents()), now)
      ensures timers == [] || now < timers[0].when
    {
      hide Good, Expired, IdsOf, Increasing, Less, LowerBound;
      ghost var before := Contents();
      ExpireRefines(before, now);
      ExpiredPrefix(before, now);
      var end := LowerBound(timers, Sentry(now));
      assert end == |timers| || now < timers[end].when;
      expired := timers[..end];
      timers := timers[end..];
      var ids := IdsOf(heap, expired);
      for i := 0 to |ids|
        invariant timers == before.timers[end..]
        invariant activeTimers == before.active - SetOf(ids[..i])
        invariant taken == SetOf(ids[..i])
      {
        AmongActive(before, now, i);
        assert ids[i] in activeTimers;
        activeTimers := activeTimers - {ids[i]};
        taken := taken + {ids[i]};
        assert ids[..i + 1] == ids[..i] + [ids[i]];
      }
      assert ids[..|ids|] == ids;
      assert Contents() == Expire(before, now);
    }

    /** handleRead. `script(i)` is what the i-th callback of the batch does; `elapsed` and `elapsedReset` are
        the times that pass before the clock readings at the start and in reset. */
    method HandleRead(elapsed: nat, script: nat -> seq<Op>, elapsedReset: nat) returns (ran: seq<Id>)
      requires Valid()
      requires LegalAll(Take(Model(), clock + elapsed), Flatten(script, 0, |Expired(Contents(), clock + elapsed)|))
      modifies this
      ensures Valid()
      ensures Inv(old(Model())) && ran == DueOrder(old(Model()).live, old(clock) + elapsed)
      ensures Model() == TimerSpec.HandleRead(old(Model()), old(clock) + elapsed, Flatten(script, 0, |ran|))
      ensures timers != [] && timers[0].when > 0 ==> timerfd == Armed(Max(timers[0].when, clock + 100), clock)
    {
      hide Good, Queue, Expire, Expired, Take, Finish, Finishing, Inv, LegalAll, ApplyAll, DueOrder, OnceEach, SetOf;
      ghost var before := Contents();
      var now := Now(elapsed);
      BatchStarts(before, now);
      ReadTimerfd();
      var expired := GetExpired(now);
      ran := IdsOf(heap, expired);
      callingExpiredTimers := true;
      cancelingTimers := {};
      assert Contents() == Expire(before, now).(calling := true, canceling := {});
      assert taken == Expire(before, now).taken;
      assert Covered(now);
      RunCallbacks(|ran|, script);
      BatchIsTaken(Contents());
      StopCalling(Contents());
      ghost var t := Model();
      callingExpiredTimers := false;
      Reset(ran, now, elapsedReset, t);
    }

    method RunCallbacks(n: nat, script: nat -> seq<Op>)
      requires Consistent() && LegalAll(Model(), Flatten(script, 0, n))
      modifies this
      ensures Consistent() && taken == old(taken) && callingExpiredTimers == old(callingExpiredTimers)
      ensures Model() == ApplyAll(old(Model()), Flatten(script, 0, n))
      ensures forall limit | old(Covered(limit)) :: Covered(limit)
      ensures old(clock) <= clock
    {
      hide Good, Queue, Apply, ApplyAll, LegalAll;
      for i := 0 to n
        invariant Consistent() && taken == old(taken) && callingExpiredTimers == old(callingExpiredTimers)
        invariant LegalAll(Model(), Flatten(script, i, n))
        invariant ApplyAll(Model(), Flatten(script, i, n)) == ApplyAll(old(Model()), Flatten(script, 0, n))
        invariant forall limit | old(Covered(limit)) :: Covered(limit)
        invariant old(clock) <= clock
      {
        ApplyAllConcat(Model(), script(i), Flatten(script, i + 1, n));
        RunCallback(script(i));
      }
      ApplyNothing(Model());
    }

    /** reset: repeating timers that were not canceled go back into the queue, the others are deleted, and
        the timerfd is set for whatever is earliest then. */
    method Reset(expired: seq<Id>, now: int, elapsed: nat, ghost t: Timers)
      requires Consistent() && !callingExpiredTimers && OnceEach(expired)
      requires t.batch.Keys == SetOf(expired) && t.canceled == cancelingTimers
      requires Model() == Finishing(t, now, {})
      requires Covered(now) && 0 < now <= clock
      modifies this
      ensures Valid() && Model() == Finish(t, now)
      ensures SetForTheEarliest(old(timerfd))
    {
      hide Good, Queue, Finishing, SetOf, OnceEach;
      BatchIsTaken(Contents());
      FinishingBatch(t, now, {});
      FinishingEnds(t, now);
      SetOfEnds(expired);
      for i := 0 to |expired|
        invariant Consistent() && !callingExpiredTimers && cancelingTimers == t.canceled
        invariant clock == old(clock) && timerfd == old(timerfd)
        invariant taken == SetOf(expired[i..])
        invariant Model() == Finishing(t, now, SetOf(expired[..i]))
        invariant Covered(now)
      {
        SetOfStep(expired, i);
        ResetTimer(expired[i], now, t, SetOf(expired[..i]));
      }
      if timers != [] {
        var nextExpire := timers[0].when;
        if nextExpire > 0 {
          ResetTimerfd(nextExpire, elapsed);
        }
      }
    }

    // One turn of reset's loop.
    method ResetTimer(id: Id, now: int, ghost t: Timers, ghost done: set<Id>)
      requires Consistent() && !callingExpiredTimers && id in taken
      requires id in t.batch && id !in done && t.canceled == cancelingTimers
      requires Model() == Finishing(t, now, done) && Covered(now)
      modifies this`heap, this`timers, this`activeTimers, this`awaiting, this`taken
      ensures Consistent() && taken == old(taken) - {id}
      ensures Model() == Finishing(t, now, done + {id}) && Covered(now)
    {
      hide Good, Queue, Finishing, Increasing;
      ResetTimerRefines(Contents(), id, now, t, done);
      var timer := heap[id.addr];
      if timer.Repeat() && id !in cancelingTimers {
        heap := heap[id.addr := timer.Restart(now)];
        var _ := Insert(id);
      } else {
        heap := heap - {id.addr};
        taken := taken - {id};
      }
      assert Contents() == TimerIndex.ResetTimer(old(Contents()), id, now);
    }
  }
}
