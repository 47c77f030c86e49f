/** What the timer queue is for, without its two ordered sets: a map from timer identities to their due
    times, the operations callbacks may perform, and one batch of expired timers at a time.
    Times are integer microseconds on one clock. */
module TimerSpec {

  // The largest pointer value: the sentry of getExpired, never the address of a timer.
  const UINTPTR_MAX: int := 0xFFFF_FFFF_FFFF_FFFF

  type Addr = a: int | 0 <= a < UINTPTR_MAX

  /** A TimerId: addresses are reused by the allocator, sequence numbers are not. */
  datatype Id = Id(addr: Addr, sequence: nat)

  datatype Info = Info(expiration: int, interval: int) {
    predicate Repeat() { interval > 0 }
  }

  /** Something done to the queue, with the address the allocator answered where one is needed.
      `elapsed` is the time that passed since the previous clock reading. */
  datatype Op =
    | Add(addr: Addr, when: int, interval: int, elapsed: nat)   // addTimer in the loop thread
    | AddElsewhere(addr: Addr, when: int, interval: int)        // addTimer in another thread: queued
    | Cancel(id: Id)                                            // cancelInLoop

  /** `live`: in the queue. `awaiting`: allocated, its addTimerInLoop still queued.
      `batch`: taken by the handleRead that is running callbacks (`calling`). */
  datatype Timers = Timers(
    live: map<Id, Info>,
    awaiting: map<Id, Info>,
    batch: map<Id, Info>,
    calling: bool,
    canceled: set<Id>,
    created: nat)

  const Empty := Timers(map[], map[], map[], false, {}, 0)

  function Known(t: Timers): set<Id> {
    t.live.Keys + t.awaiting.Keys + t.batch.Keys
  }

  ghost predicate Unique(ids: set<Id>, created: nat) {
    && (forall x <- ids :: 1 <= x.sequence <= created)
    && (forall x, y | x in ids && y in ids && (x.addr == y.addr || x.sequence == y.sequence) :: x == y)
  }

  lemma UniqueGrows(ids: set<Id>, created: nat, id: Id)
    requires Unique(ids, created) && id.sequence == created + 1 && forall x <- ids :: x.addr != id.addr
    ensures Unique(ids + {id}, created + 1) && id !in ids
  {
  }

  lemma UniqueShrinks(ids: set<Id>, fewer: set<Id>, created: nat)
    requires Unique(ids, created) && fewer <= ids
    ensures Unique(fewer, created)
  {
  }

  /** Every known timer sits in one place, and no two share an address or a sequence number. */
  ghost predicate Inv(t: Timers) {
    && t.live.Keys !! t.awaiting.Keys !! t.batch.Keys
    && Unique(Known(t), t.created)
    && (!t.calling ==> t.batch == map[] && t.canceled == {})
  }

  lemma InvAddresses(t: Timers)
    requires Inv(t)
    ensures forall x, y | x in t.live && y in t.live && x.addr == y.addr :: x == y
  {
  }

  // malloc never answers an address that is in use.
  ghost predicate Legal(t: Timers, op: Op) {
    !op.Cancel? ==> forall x <- Known(t) :: x.addr != op.addr
  }

  function NewId(t: Timers, op: Op): Id
    requires !op.Cancel?
  {
    Id(op.addr, t.created + 1)
  }

  function Apply(t: Timers, op: Op): Timers {
    match op
    case Add(_, when, interval, _) =>
      t.(live := t.live[NewId(t, op) := Info(when, interval)], created := t.created + 1)
    case AddElsewhere(_, when, interval) =>
      t.(awaiting := t.awaiting[NewId(t, op) := Info(when, interval)], created := t.created + 1)
    case Cancel(id) =>
      if id in t.live then t.(live := t.live - {id})
      else if t.calling then t.(canceled := t.canceled + {id})
      else t
  }

  ghost predicate LegalAll(t: Timers, ops: seq<Op>)
    decreases |ops|
  {
    ops != [] ==> Legal(t, ops[0]) && LegalAll(Apply(t, ops[0]), ops[1..])
  }

  function ApplyAll(t: Timers, ops: seq<Op>): Timers
    decreases |ops|
  {
    if ops == [] then t else ApplyAll(Apply(t, ops[0]), ops[1..])
  }

  lemma ApplyNothing(t: Timers)
    ensures ApplyAll(t, []) == t && LegalAll(t, [])
  {
  }

  // ---- one handleRead ----

  ghost predicate Due(m: map<Id, Info>, now: int, id: Id) {
    id in m && m[id].expiration <= now
  }

  ghost function Take(t: Timers, now: int): Timers {
    t.(live := map id | id in t.live && t.live[id].expiration > now :: t.live[id],
       batch := map id | id in t.live && t.live[id].expiration <= now :: t.live[id],
       calling := true,
       canceled := {})
  }

  ghost predicate Rescheduled(t: Timers, id: Id) {
    id in t.batch && t.batch[id].Repeat() && id !in t.canceled
  }

  ghost function Finish(t: Timers, now: int): Timers {
    t.(live := t.live + (map id | id in t.batch && Rescheduled(t, id) ::
         Info(now + t.batch[id].interval, t.batch[id].interval)),
       batch := map[],
       calling := false,
       canceled := {})
  }

  ghost function HandleRead(t: Timers, now: int, ops: seq<Op>): Timers {
    Finish(ApplyAll(Take(t, now), ops), now)
  }

  // ---- the order in which a batch runs ----

  predicate Before(m: map<Id, Info>, x: Id, y: Id)
    requires x in m && y in m
  {
    m[x].expiration < m[y].expiration || (m[x].expiration == m[y].expiration && x.addr < y.addr)
  }

  /** `order` lists the due timers, each once, by (expiration, address). */
  ghost predicate IsDueOrder(m: map<Id, Info>, now: int, order: seq<Id>) {
    && (forall id :: id in order <==> Due(m, now, id))
    && (forall i, j | 0 <= i < j < |order| ::
          Due(m, now, order[i]) && Due(m, now, order[j]) && Before(m, order[i], order[j]))
  }

  lemma DueOrderTail(m: map<Id, Info>, now: int, order: seq<Id>)
    requires IsDueOrder(m, now, order) && order != []
    ensures IsDueOrder(m - {order[0]}, now, order[1..])
    ensures forall y | Due(m, now, y) && y != order[0] :: Due(m, now, order[0]) && Before(m, order[0], y)
  {
    var rest, tail := m - {order[0]}, order[1..];
    assert order[0] in order;
    forall id ensures id in tail <==> Due(rest, now, id) {
      if id in tail {
        var i :| 0 <= i < |tail| && tail[i] == id;
        assert order[i + 1] == id && Before(m, order[0], order[i + 1]);
      }
      if Due(rest, now, id) {
        assert id in order;
        var i :| 0 <= i < |order| && order[i] == id;
        assert i != 0 && tail[i - 1] == id;
      }
    }
    forall y | Due(m, now, y) && y != order[0] ensures Before(m, order[0], y) {
      assert y in order;
      var i :| 0 <= i < |order| && order[i] == y;
      assert i != 0;
    }
  }

  lemma DueOrderCons(m: map<Id, Info>, now: int, first: Id, tail: seq<Id>)
    requires Due(m, now, first) && IsDueOrder(m - {first}, now, tail)
    requires forall y | Due(m, now, y) && y != first :: Before(m, first, y)
    ensures IsDueOrder(m, now, [first] + tail)
  {
    var order := [first] + tail;
    forall id ensures id in order <==> Due(m, now, id) {
      assert id in tail <==> Due(m - {first}, now, id);
    }
    forall i, j | 0 <= i < j < |order|
      ensures Due(m, now, order[i]) && Due(m, now, order[j]) && Before(m, order[i], order[j])
    {
      assert order[j] == tail[j - 1] && tail[j - 1] in tail;
      assert Due(m - {first}, now, tail[j - 1]);
      if i > 0 {
        assert order[i] == tail[i - 1];
        assert Before(m - {first}, tail[i - 1], tail[j - 1]);
      }
    }
  }

  /** There is only one such order, so naming it determines the whole sequence of callbacks. */
  lemma {:induction false} DueOrderUnique(m: map<Id, Info>, now: int, a: seq<Id>, b: seq<Id>)
    requires IsDueOrder(m, now, a) && IsDueOrder(m, now, b)
    ensures a == b
    decreases |a|
  {
    assert (a != [] ==> a[0] in a) && (b != [] ==> b[0] in b);
    if a != [] {
      assert a[0] in b;
      DueOrderTail(m, now, a);
      DueOrderTail(m, now, b);
      assert b[0] in a;
      assert a[0] == b[0];
      DueOrderUnique(m - {a[0]}, now, a[1..], b[1..]);
      assert a == [a[0]] + a[1..] && b == [b[0]] + b[1..];
    }
  }

  /** Such an order always exists; this picks it. */
  ghost function DueOrder(m: map<Id, Info>, now: int): (order: seq<Id>)
    requires DistinctAddresses(m)
    ensures IsDueOrder(m, now, order)
    decreases |m|
  {
    if d: Id :| Due(m, now, d) then
      var first := Earliest(m, d);
      var tail := DueOrder(m - {first}, now);
      DueOrderCons(m, now, first, tail);
      [first] + tail
    else []
  }

  ghost predicate DistinctAddresses(m: map<Id, Info>) {
    forall x, y | x in m && y in m && x.addr == y.addr :: x == y
  }

  ghost function Earliest(m: map<Id, Info>, d: Id): (first: Id)
    requires d in m && DistinctAddresses(m)
    ensures first in m && (forall y <- m | y != first :: Before(m, first, y))
    ensures m[first].expiration <= m[d].expiration
    decreases |m|
  {
    if m.Keys == {d} then d
    else
      var x: Id :| x in m && x != d;
      assert d in m - {x};
      var e := Earliest(m - {x}, d);
      assert forall y <- m :: y == x || y in m - {x};
      if Before(m, e, x) then e else x
  }

  // ---- what operations do, identity by identity ----

  lemma ApplyKeepsInv(t: Timers, op: Op)
    requires Inv(t) && Legal(t, op)
    ensures Inv(Apply(t, op))
    ensures Apply(t, op).calling == t.calling && Apply(t, op).batch == t.batch
    ensures t.created <= Apply(t, op).created
  {
    match op
    case Add(_, _, _, _) => AddKeepsInv(t, op);
    case AddElsewhere(_, _, _) => AddKeepsInv(t, op);
    case Cancel(id) => CancelKeepsInv(t, id);
  }

  lemma AddKeepsInv(t: Timers, op: Op)
    requires Inv(t) && Legal(t, op) && !op.Cancel?
    ensures Inv(Apply(t, op))
  {
    hide Unique;
    var r, id := Apply(t, op), NewId(t, op);
    UniqueGrows(Known(t), t.created, id);
    if op.Add? {
      assert r.live.Keys == t.live.Keys + {id};
    } else {
      assert r.awaiting.Keys == t.awaiting.Keys + {id};
    }
    assert Known(r) == Known(t) + {id};
  }

  lemma CancelKeepsInv(t: Timers, id: Id)
    requires Inv(t)
    ensures Inv(Apply(t, Cancel(id)))
  {
    hide Unique;
    var r := Apply(t, Cancel(id));
    assert r.live.Keys <= t.live.Keys;
    UniqueShrinks(Known(t), Known(r), t.created);
  }

  lemma {:induction false} ApplyAllKeepsInv(t: Timers, ops: seq<Op>)
    requires Inv(t) && LegalAll(t, ops)
    ensures Inv(ApplyAll(t, ops))
    ensures ApplyAll(t, ops).calling == t.calling && ApplyAll(t, ops).batch == t.batch
    ensures t.created <= ApplyAll(t, ops).created
    decreases |ops|
  {
    if ops != [] {
      ApplyKeepsInv(t, ops[0]);
      ApplyAllKeepsInv(Apply(t, ops[0]), ops[1..]);
    }
  }

  lemma {:induction false} ApplyAllConcat(t: Timers, a: seq<Op>, b: seq<Op>)
    ensures ApplyAll(t, a + b) == ApplyAll(ApplyAll(t, a), b)
    ensures LegalAll(t, a + b) <==> LegalAll(t, a) && LegalAll(ApplyAll(t, a), b)
    decreases |a|
  {
    if a == [] {
      assert a + b == b;
    } else {
      assert (a + b)[0] == a[0] && (a + b)[1..] == a[1..] + b;
      ApplyAllConcat(Apply(t, a[0]), a[1..], b);
    }
  }

  lemma TakeKeepsInv(t: Timers, now: int)
    requires Inv(t) && !t.calling
    ensures Inv(Take(t, now)) && Known(Take(t, now)) == Known(t)
  {
    var r := Take(t, now);
    assert r.live.Keys + r.batch.Keys == t.live.Keys;
  }

  lemma FinishKeepsInv(t: Timers, now: int)
    requires Inv(t)
    ensures Inv(Finish(t, now)) && Known(Finish(t, now)) <= Known(t)
  {
    assert Known(Finish(t, now)) <= Known(t) by { hide Unique; }
    UniqueShrinks(Known(t), Known(Finish(t, now)), t.created);
    hide Unique;
  }

  lemma IssuedThroughOp(t: Timers, op: Op, id: Id)
    requires Inv(t) && Legal(t, op) && id.sequence <= t.created
    ensures id in Apply(t, op).live <==> id in t.live && op != Cancel(id)
    ensures id in Apply(t, op).live ==> Apply(t, op).live[id] == t.live[id]
    ensures id in Apply(t, op).awaiting <==> id in t.awaiting
    ensures t.calling && id !in t.live ==> (id in Apply(t, op).canceled <==> id in t.canceled || op == Cancel(id))
  {
  }

  /** An identity already issued can only leave the queue, and leaves it exactly when it is canceled. */
  lemma {:induction false} IssuedThroughOps(t: Timers, ops: seq<Op>, id: Id)
    requires Inv(t) && LegalAll(t, ops) && id.sequence <= t.created
    ensures id in ApplyAll(t, ops).live <==> id in t.live && Cancel(id) !in ops
    ensures id in ApplyAll(t, ops).live ==> ApplyAll(t, ops).live[id] == t.live[id]
    ensures id in ApplyAll(t, ops).awaiting <==> id in t.awaiting
    ensures t.calling && id !in t.live ==> (id in ApplyAll(t, ops).canceled <==> id in t.canceled || Cancel(id) in ops)
    decreases |ops|
  {
    if ops != [] {
      var op, rest := ops[0], ops[1..];
      assert ops == [op] + rest;
      ApplyKeepsInv(t, op);
      IssuedThroughOp(t, op, id);
      IssuedThroughOps(Apply(t, op), rest, id);
      assert Cancel(id) in ops <==> op == Cancel(id) || Cancel(id) in rest;
    }
  }

  /** Whether operation k of `ops`, started in t, creates timer `id` in the loop thread. */
  predicate AddedBy(t: Timers, ops: seq<Op>, k: nat, id: Id)
    requires k < |ops|
  {
    ops[k].Add? && id == NewId(ApplyAll(t, ops[..k]), ops[k])
  }

  /** Operation k creates the timer and no later one cancels it. */
  ghost predicate AddedForGood(t: Timers, ops: seq<Op>, k: int, id: Id) {
    0 <= k < |ops| && AddedBy(t, ops, k, id) && Cancel(id) !in ops[k + 1..]
  }

  /** An identity not yet issued is in the queue afterwards exactly when some operation created it and none
      canceled it later; canceling a guessed identity before it exists does nothing. */
  lemma {:induction false} FreshThroughOps(t: Timers, ops: seq<Op>, id: Id)
    requires Inv(t) && LegalAll(t, ops) && id.sequence > t.created
    ensures id in ApplyAll(t, ops).live <==> exists k :: AddedForGood(t, ops, k, id)
    ensures forall k | 0 <= k < |ops| && AddedBy(t, ops, k, id) && id in ApplyAll(t, ops).live
              :: ApplyAll(t, ops).live[id] == Info(ops[k].when, ops[k].interval)
    decreases |ops|
  {
    if ops != [] {
      var u := Apply(t, ops[0]);
      hide Inv, Apply, AddedBy, AddedForGood;
      ApplyKeepsInv(t, ops[0]);
      ApplyCounts(t, ops[0]);
      FirstAdds(t, ops, id);
      if id.sequence > u.created {
        FreshThroughOps(u, ops[1..], id);
        NotFirst(t, ops, id);
        forall k | 0 <= k < |ops| && AddedBy(t, ops, k, id) && id in ApplyAll(t, ops).live
          ensures ApplyAll(t, ops).live[id] == Info(ops[k].when, ops[k].interval)
        {
          AddedLater(t, ops, k, id);
          assert AddedBy(u, ops[1..], k - 1, id);
        }
      } else {
        FreshAtOnce(t, ops, id);
      }
    } else {
      assert forall k :: !AddedForGood(t, ops, k, id);
    }
  }

  lemma ApplyCounts(t: Timers, op: Op)
    ensures t.created <= Apply(t, op).created
  {
  }

  // The first operation does not create the timer: one that does is in the tail.
  lemma NotFirst(t: Timers, ops: seq<Op>, id: Id)
    requires Inv(t) && ops != [] && id.sequence > Apply(t, ops[0]).created >= t.created
    ensures (exists k :: AddedForGood(t, ops, k, id)) <==> exists j :: AddedForGood(Apply(t, ops[0]), ops[1..], j, id)
  {
    var u := Apply(t, ops[0]);
    hide Inv, Apply, AddedBy, AddedForGood;
    FirstAdds(t, ops, id);
    if j :| AddedForGood(u, ops[1..], j, id) {
      AddedInRange(u, ops[1..], j, id);
      AddedLater(t, ops, j + 1, id);
      assert AddedForGood(t, ops, j + 1, id);
    }
    if k :| AddedForGood(t, ops, k, id) {
      AddedInRange(t, ops, k, id);
      AddedLater(t, ops, k, id);
      assert AddedForGood(u, ops[1..], k - 1, id);
    }
  }

  // The first operation creates the timer, and no later one can.
  lemma FreshAtOnce(t: Timers, ops: seq<Op>, id: Id)
    requires Inv(t) && LegalAll(t, ops) && ops != [] && t.created < id.sequence <= Apply(t, ops[0]).created
    ensures id in ApplyAll(t, ops).live <==> exists k :: AddedForGood(t, ops, k, id)
    ensures forall k | 0 <= k < |ops| && AddedBy(t, ops, k, id) && id in ApplyAll(t, ops).live
              :: ApplyAll(t, ops).live[id] == Info(ops[k].when, ops[k].interval)
  {
    var u := Apply(t, ops[0]);
    hide Inv, Apply, AddedBy, AddedForGood;
    ApplyKeepsInv(t, ops[0]);
    FirstAdds(t, ops, id);
    IssuedThroughOps(u, ops[1..], id);
    forall k ensures 0 < k < |ops| ==> !AddedBy(t, ops, k, id) && !AddedForGood(t, ops, k, id) {
      if 0 < k < |ops| {
        SequencesGrow(u, ops[1..], k - 1, id);
        AddedLater(t, ops, k, id);
        AddedInRange(t, ops, k, id);
      }
    }
    forall k { AddedInRange(t, ops, k, id); }
  }

  lemma AddedInRange(t: Timers, ops: seq<Op>, k: int, id: Id)
    ensures AddedForGood(t, ops, k, id) ==> 0 <= k < |ops| && AddedBy(t, ops, k, id)
  {
  }

  // What the first operation does to an identity that did not exist before it.
  lemma FirstAdds(t: Timers, ops: seq<Op>, id: Id)
    requires Inv(t) && ops != [] && id.sequence > t.created
    ensures var u := Apply(t, ops[0]);
      && (id.sequence > u.created ==> !AddedBy(t, ops, 0, id))
      && (id in u.live <==> AddedBy(t, ops, 0, id))
      && (id in u.live ==> id.sequence <= u.created && u.live[id] == Info(ops[0].when, ops[0].interval))
      && (AddedForGood(t, ops, 0, id) <==> AddedBy(t, ops, 0, id) && Cancel(id) !in ops[1..])
  {
    assert ops[..0] == [];
  }

  // Position k of a list of operations is position k - 1 of its tail.
  lemma AddedLater(t: Timers, ops: seq<Op>, k: int, id: Id)
    requires ops != []
    ensures 0 < k < |ops| ==>
      && (AddedBy(t, ops, k, id) <==> AddedBy(Apply(t, ops[0]), ops[1..], k - 1, id))
      && (AddedForGood(t, ops, k, id) <==> AddedForGood(Apply(t, ops[0]), ops[1..], k - 1, id))
  {
    if 0 < k < |ops| {
      assert ops[..k][0] == ops[0] && ops[..k][1..] == ops[1..][..k - 1];
      assert ops[k + 1..] == ops[1..][k..];
    }
  }

  /** An issued identity is never issued again. */
  lemma SequencesGrow(t: Timers, ops: seq<Op>, k: nat, id: Id)
    requires Inv(t) && LegalAll(t, ops) && k < |ops| && id.sequence <= t.created
    ensures !AddedBy(t, ops, k, id)
  {
    assert ops == ops[..k] + ops[k..];
    ApplyAllConcat(t, ops[..k], ops[k..]);
    ApplyAllKeepsInv(t, ops[..k]);
  }

  /** The whole effect of one handleRead on the queue: which timers are in it afterwards, and when each is due. */
  lemma HandleReadOutcome(t: Timers, now: int, ops: seq<Op>, id: Id)
    requires Inv(t) && !t.calling && LegalAll(Take(t, now), ops)
    ensures var r := HandleRead(t, now, ops);
      && Inv(r) && !r.calling
      && (id.sequence <= t.created && Due(t.live, now, id) ==>
            && (id in r.live <==> t.live[id].Repeat() && Cancel(id) !in ops)
            && (id in r.live ==> r.live[id] == Info(now + t.live[id].interval, t.live[id].interval)))
      && (id.sequence <= t.created && !Due(t.live, now, id) ==>
            && (id in r.live <==> id in t.live && Cancel(id) !in ops)
            && (id in r.live ==> r.live[id] == t.live[id]))
      && (id.sequence > t.created ==>
            && (id in r.live <==> exists k :: AddedForGood(Take(t, now), ops, k, id))
            && (forall k | 0 <= k < |ops| && AddedBy(Take(t, now), ops, k, id) && id in r.live
                  :: r.live[id] == Info(ops[k].when, ops[k].interval)))
  {
    var u := Take(t, now);
    TakeKeepsInv(t, now);
    ApplyAllKeepsInv(u, ops);
    FinishKeepsInv(ApplyAll(u, ops), now);
    if id.sequence <= t.created {
      IssuedThroughOps(u, ops, id);
    } else {
      FreshThroughOps(u, ops, id);
    }
  }
}
