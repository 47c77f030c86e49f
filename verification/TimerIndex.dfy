/** The timer queue's memory: timers on a heap whose addresses are reused, indexed twice, each with one owner. */
module TimerIndex {
  import opened TimerSpec
  import opened OrderedEntries
  import opened TimerRuns

  /** A heap object. `expiration` is overwritten by Restart. */
  datatype Timer = Timer(expiration: int, interval: int, sequence: nat) {
    predicate Repeat() { interval > 0 }

    // `now + interval` for a repeating timer, Timestamp::invalid() for the others.
    function Restart(now: int): Timer {
      this.(expiration := if Repeat() then now + interval else 0)
    }
  }

  // ---- ownership and indexing ----

  ghost predicate OnHeap(heap: map<Addr, Timer>, ids: set<Id>) {
    forall id <- ids :: id.addr in heap && heap[id.addr].sequence == id.sequence
  }

  ghost function Lookup(heap: map<Addr, Timer>, ids: set<Id>): map<Id, Info>
    requires OnHeap(heap, ids)
  {
    map id | id in ids :: Info(heap[id.addr].expiration, heap[id.addr].interval)
  }

  /** Each allocated timer has exactly one owner: the queue, a functor, or the batch. */
  ghost predicate Owned(heap: map<Addr, Timer>, active: set<Id>, awaiting: set<Id>, taken: set<Id>, created: nat) {
    && active !! awaiting !! taken
    && OnHeap(heap, active) && OnHeap(heap, awaiting) && OnHeap(heap, taken)
    && (forall a <- heap :: Id(a, heap[a].sequence) in active + awaiting + taken)
    && (forall a <- heap :: 1 <= heap[a].sequence <= created)
    && (forall a, b | a in heap && b in heap && heap[a].sequence == heap[b].sequence :: a == b)
  }

  ghost predicate EntryOf(heap: map<Addr, Timer>, active: set<Id>, e: Entry) {
    && 0 <= e.addr < UINTPTR_MAX && e.addr in heap && heap[e.addr].expiration == e.when
    && Id(e.addr, heap[e.addr].sequence) in active
  }

  /** timers_ and activeTimers_ hold the same timers, with the expirations the timers themselves carry. */
  ghost predicate Indexed(heap: map<Addr, Timer>, timers: seq<Entry>, active: set<Id>) {
    && OnHeap(heap, active)
    && Increasing(timers)
    && (forall e <- timers :: EntryOf(heap, active, e))
    && (forall id <- active :: Entry(heap[id.addr].expiration, id.addr) in timers)
  }

  /** The assertions `timers_.size() == activeTimers_.size()`. */
  lemma {:induction false} SizesAgree(heap: map<Addr, Timer>, timers: seq<Entry>, active: set<Id>)
    requires Indexed(heap, timers, active)
    ensures |timers| == |active|
    decreases |timers|
  {
    forall id <- active ensures timers != [] {
      assert Entry(heap[id.addr].expiration, id.addr) in timers;
    }
    if timers == [] {
      assert active == {};
    } else {
      var e, rest := timers[0], timers[1..];
      assert e in timers;
      var id := Id(e.addr, heap[e.addr].sequence);
      forall x <- active - {id} ensures Entry(heap[x.addr].expiration, x.addr) in rest {
        assert Entry(heap[x.addr].expiration, x.addr) in timers;
      }
      forall i | 0 <= i < |rest| ensures EntryOf(heap, active - {id}, rest[i]) {
        assert rest[i] == timers[i + 1] && timers[i + 1] in timers && Less(e, timers[i + 1]);
      }
      SizesAgree(heap, rest, active - {id});
    }
  }

  // Indexing depends only on the timers that are indexed.
  lemma IndexedElsewhere(heap: map<Addr, Timer>, h: map<Addr, Timer>, timers: seq<Entry>, active: set<Id>)
    requires Indexed(heap, timers, active)
    requires forall id <- active :: id.addr in h && h[id.addr] == heap[id.addr]
    ensures Indexed(h, timers, active)
  {
    forall e <- timers ensures EntryOf(h, active, e) {
      assert EntryOf(heap, active, e);
    }
  }

  lemma SameLookup(heap: map<Addr, Timer>, h: map<Addr, Timer>, ids: set<Id>)
    requires OnHeap(heap, ids) && forall id <- ids :: id.addr in h && h[id.addr] == heap[id.addr]
    ensures OnHeap(h, ids) && Lookup(h, ids) == Lookup(heap, ids)
  {
  }

  lemma OwnersOnHeap(heap: map<Addr, Timer>, active: set<Id>, awaiting: set<Id>, taken: set<Id>, created: nat)
    requires Owned(heap, active, awaiting, taken, created)
    ensures active !! awaiting !! taken
    ensures OnHeap(heap, active) && OnHeap(heap, awaiting) && OnHeap(heap, taken)
  {
  }

  ghost predicate OnlyAt(ids: set<Id>, id: Id) {
    forall x <- ids | x.addr == id.addr :: x == id
  }

  // No other owned timer has the address of an owned timer.
  lemma OneOwner(heap: map<Addr, Timer>, active: set<Id>, awaiting: set<Id>, taken: set<Id>, created: nat, id: Id)
    requires Owned(heap, active, awaiting, taken, created) && id in active + awaiting + taken
    ensures OnlyAt(active, id) && OnlyAt(awaiting, id) && OnlyAt(taken, id)
  {
  }

  lemma OwnedAfterNew(heap: map<Addr, Timer>, active: set<Id>, awaiting: set<Id>, taken: set<Id>, created: nat,
    addr: Addr, timer: Timer)
    requires Owned(heap, active, awaiting, taken, created)
    requires addr !in heap && timer.sequence == created + 1
    ensures var id := Id(addr, timer.sequence);
      id !in active + awaiting + taken && Owned(heap[addr := timer], active, awaiting + {id}, taken, created + 1)
  {
    var h, id := heap[addr := timer], Id(addr, timer.sequence);
    forall a <- h ensures Id(a, h[a].sequence) in active + (awaiting + {id}) + taken {
      if a != addr { assert Id(a, heap[a].sequence) in active + awaiting + taken; }
    }
  }

  lemma OwnedAfterDelete(heap: map<Addr, Timer>, active: set<Id>, awaiting: set<Id>, taken: set<Id>,
    created: nat, id: Id)
    requires Owned(heap, active, awaiting, taken, created) && id in active + awaiting + taken
    ensures Owned(heap - {id.addr}, active - {id}, awaiting - {id}, taken - {id}, created)
  {
    var h := heap - {id.addr};
    OneOwner(heap, active, awaiting, taken, created, id);
    forall a <- h ensures Id(a, h[a].sequence) in (active - {id}) + (awaiting - {id}) + (taken - {id}) {
      assert Id(a, heap[a].sequence) in active + awaiting + taken;
    }
  }

  lemma OwnedAfterInsert(heap: map<Addr, Timer>, active: set<Id>, awaiting: set<Id>, taken: set<Id>,
    created: nat, id: Id)
    requires Owned(heap, active, awaiting, taken, created) && id in awaiting + taken
    ensures id !in active && Owned(heap, active + {id}, awaiting - {id}, taken - {id}, created)
  {
    forall a <- heap ensures Id(a, heap[a].sequence) in (active + {id}) + (awaiting - {id}) + (taken - {id}) {
      assert Id(a, heap[a].sequence) in active + awaiting + taken;
    }
  }

  // The assertions of insert: neither set holds the timer yet.
  lemma IndexedAfterInsert(heap: map<Addr, Timer>, timers: seq<Entry>, active: set<Id>, id: Id)
    requires Indexed(heap, timers, active)
    requires id !in active && id.addr in heap && heap[id.addr].sequence == id.sequence
    ensures var e := Entry(heap[id.addr].expiration, id.addr);
      e !in timers && Indexed(heap, Insert(timers, e), active + {id})
  {
    var e := Entry(heap[id.addr].expiration, id.addr);
    assert forall x <- timers :: EntryOf(heap, active, x);
    forall x <- Insert(timers, e) ensures EntryOf(heap, active + {id}, x) {
      assert x == e || x in timers;
    }
  }

  // The assertion of cancelInLoop: timers_ holds the entry that activeTimers_ leads to.
  lemma IndexedAfterErase(heap: map<Addr, Timer>, timers: seq<Entry>, active: set<Id>, id: Id)
    requires Indexed(heap, timers, active)
    requires id in active && OnlyAt(active, id)
    ensures var e := Entry(heap[id.addr].expiration, id.addr);
      e in timers && Indexed(heap - {id.addr}, Erase(timers, e), active - {id})
  {
    hide Erase, Increasing;
    var e, h := Entry(heap[id.addr].expiration, id.addr), heap - {id.addr};
    forall x <- Erase(timers, e) ensures EntryOf(h, active - {id}, x) {
      assert x in timers && EntryOf(heap, active, x);
      assert x.addr != id.addr;
    }
    forall x <- active - {id} ensures Entry(h[x.addr].expiration, x.addr) in Erase(timers, e) {
      assert Entry(heap[x.addr].expiration, x.addr) in timers;
    }
  }

  // ---- the whole memory, and the simple queue it stands for ----

  /** `awaiting`: bound in addTimerInLoop functors that have not run; `taken`: in handleRead's expired vector. */
  datatype Memory = Memory(
    heap: map<Addr, Timer>, timers: seq<Entry>, active: set<Id>, canceling: set<Id>, calling: bool,
    awaiting: set<Id>, taken: set<Id>, created: nat)

  ghost predicate Good(m: Memory) {
    && Owned(m.heap, m.active, m.awaiting, m.taken, m.created)
    && Indexed(m.heap, m.timers, m.active)
  }

  lemma GoodFacts(m: Memory)
    requires Good(m)
    ensures Increasing(m.timers) && |m.timers| == |m.active|
    ensures m.active !! m.awaiting !! m.taken
    ensures OnHeap(m.heap, m.active) && OnHeap(m.heap, m.awaiting) && OnHeap(m.heap, m.taken)
  {
    SizesAgree(m.heap, m.timers, m.active);
  }

  ghost function Queue(m: Memory): Timers
    requires Good(m)
  {
    Timers(Lookup(m.heap, m.active), Lookup(m.heap, m.awaiting), Lookup(m.heap, m.taken), m.calling,
           if m.calling then m.canceling else {}, m.created)
  }

  lemma OwnedAreUnique(heap: map<Addr, Timer>, active: set<Id>, awaiting: set<Id>, taken: set<Id>, created: nat)
    requires Owned(heap, active, awaiting, taken, created)
    ensures Unique(active + awaiting + taken, created)
    ensures forall a <- heap :: Id(a, heap[a].sequence) in active + awaiting + taken
  {
    var ids := active + awaiting + taken;
    assert forall x <- ids :: x.addr in heap && heap[x.addr].sequence == x.sequence;
  }

  lemma LookupKeys(heap: map<Addr, Timer>, ids: set<Id>)
    requires OnHeap(heap, ids)
    ensures Lookup(heap, ids).Keys == ids && (ids == {} ==> Lookup(heap, ids) == map[])
  {
  }

  lemma KnownToQueue(m: Memory)
    requires Good(m)
    ensures Known(Queue(m)) == m.active + m.awaiting + m.taken
    ensures Queue(m).live.Keys == m.active && Queue(m).awaiting.Keys == m.awaiting && Queue(m).batch.Keys == m.taken
    ensures m.taken == {} ==> Queue(m).batch == map[]
  {
    OwnersOnHeap(m.heap, m.active, m.awaiting, m.taken, m.created);
    LookupKeys(m.heap, m.active);
    LookupKeys(m.heap, m.awaiting);
    LookupKeys(m.heap, m.taken);
    hide Owned, Indexed, Lookup;
  }

  lemma QueueInv(m: Memory)
    requires Good(m) && (!m.calling ==> m.taken == {})
    ensures Inv(Queue(m)) && forall a <- m.heap :: Id(a, m.heap[a].sequence) in Known(Queue(m))
  {
    hide Owned, Indexed, Unique, Lookup, Known;
    KnownToQueue(m);
    OwnedAreUnique(m.heap, m.active, m.awaiting, m.taken, m.created);
    OwnersOnHeap(m.heap, m.active, m.awaiting, m.taken, m.created);
  }

  // `new Timer`
  function Allocate(m: Memory, addr: Addr, when: int, interval: int): Memory {
    m.(heap := m.heap[addr := Timer(when, interval, m.created + 1)],
       awaiting := m.awaiting + {Id(addr, m.created + 1)},
       created := m.created + 1)
  }

  lemma AllocateRefines(m: Memory, addr: Addr, when: int, interval: int)
    requires Good(m) && addr !in m.heap
    ensures Good(Allocate(m, addr, when, interval))
    ensures Queue(Allocate(m, addr, when, interval)) == Apply(Queue(m), AddElsewhere(addr, when, interval))
  {
    hide Owned, Indexed;
    var timer := Timer(when, interval, m.created + 1);
    var h := m.heap[addr := timer];
    OwnersOnHeap(m.heap, m.active, m.awaiting, m.taken, m.created);
    OwnedAfterNew(m.heap, m.active, m.awaiting, m.taken, m.created, addr, timer);
    IndexedElsewhere(m.heap, h, m.timers, m.active);
    SameLookup(m.heap, h, m.active);
    SameLookup(m.heap, h, m.awaiting);
    SameLookup(m.heap, h, m.taken);
    LookupOneMore(h, m.awaiting, Id(addr, m.created + 1));
    hide Good;
  }

  lemma LookupOneMore(heap: map<Addr, Timer>, ids: set<Id>, id: Id)
    requires OnHeap(heap, ids) && id.addr in heap && heap[id.addr].sequence == id.sequence
    ensures OnHeap(heap, ids + {id})
    ensures Lookup(heap, ids + {id}) == Lookup(heap, ids)[id := Info(heap[id.addr].expiration, heap[id.addr].interval)]
  {
  }

  // An address the allocator may answer is not on the heap.
  lemma LegalAddress(m: Memory, op: Op)
    requires Good(m) && Legal(Queue(m), op) && !op.Cancel?
    ensures op.addr !in m.heap
  {
    forall a <- m.heap ensures a != op.addr {
      assert Id(a, m.heap[a].sequence) in Known(Queue(m));
    }
  }

  lemma AllocatedIsNew(m: Memory, addr: Addr)
    requires Good(m) && addr !in m.heap
    ensures Id(addr, Queue(m).created + 1) !in Queue(m).awaiting && Queue(m).created == m.created
  {
  }

  /** Adding from the loop thread is allocating and adding at once. */
  lemma ArriveAtOnce(t: Timers, addr: Addr, when: int, interval: int, elapsed: nat)
    requires Id(addr, t.created + 1) !in t.awaiting
    ensures Arrive(Apply(t, AddElsewhere(addr, when, interval)), Id(addr, t.created + 1)) ==
        Apply(t, Add(addr, when, interval, elapsed))
  {
    var id := Id(addr, t.created + 1);
    assert t.awaiting[id := Info(when, interval)] - {id} == t.awaiting;
  }

  // insert
  function Index(m: Memory, id: Id): Memory
    requires Good(m) && id in m.awaiting + m.taken
  {
    m.(timers := Insert(m.timers, Entry(m.heap[id.addr].expiration, id.addr)),
       active := m.active + {id}, awaiting := m.awaiting - {id}, taken := m.taken - {id})
  }

  // Both assertions of insert hold.
  lemma IndexKeepsGood(m: Memory, id: Id)
    requires Good(m) && id in m.awaiting + m.taken
    ensures Entry(m.heap[id.addr].expiration, id.addr) !in m.timers && id !in m.active
    ensures Good(Index(m, id))
  {
    hide Owned, Indexed;
    OwnersOnHeap(m.heap, m.active, m.awaiting, m.taken, m.created);
    OwnedAfterInsert(m.heap, m.active, m.awaiting, m.taken, m.created, id);
    IndexedAfterInsert(m.heap, m.timers, m.active, id);
  }

  lemma IndexRefines(m: Memory, id: Id)
    requires Good(m) && id in m.awaiting
    ensures Good(Index(m, id)) && Index(m, id).taken == m.taken
    ensures Queue(Index(m, id)) == Arrive(Queue(m), id)
  {
    hide Owned, Indexed, Insert;
    IndexKeepsGood(m, id);
    OwnersOnHeap(m.heap, m.active, m.awaiting, m.taken, m.created);
    assert m.taken - {id} == m.taken;
    assert Lookup(m.heap, m.active + {id}) == Lookup(m.heap, m.active)[id := Lookup(m.heap, m.awaiting)[id]];
    assert Lookup(m.heap, m.awaiting - {id}) == Lookup(m.heap, m.awaiting) - {id};
  }

  // cancelInLoop on a timer that is in the queue
  function Discard(m: Memory, id: Id): Memory
    requires Good(m) && id in m.active
  {
    m.(heap := m.heap - {id.addr},
       timers := Erase(m.timers, Entry(m.heap[id.addr].expiration, id.addr)),
       active := m.active - {id})
  }

  lemma DiscardRefines(m: Memory, id: Id)
    requires Good(m) && id in m.active
    ensures Entry(m.heap[id.addr].expiration, id.addr) in m.timers
    ensures Good(Discard(m, id))
    ensures Queue(Discard(m, id)) == Queue(m).(live := Queue(m).live - {id})
  {
    hide Owned, Indexed, OnlyAt, OnHeap, Lookup, Erase, Increasing;
    OwnersOnHeap(m.heap, m.active, m.awaiting, m.taken, m.created);
    OneOwner(m.heap, m.active, m.awaiting, m.taken, m.created, id);
    OwnedAfterDelete(m.heap, m.active, m.awaiting, m.taken, m.created, id);
    IndexedAfterErase(m.heap, m.timers, m.active, id);
    assert m.awaiting - {id} == m.awaiting && m.taken - {id} == m.taken;
    LookupWithout(m.heap, m.active, id);
    LookupWithout(m.heap, m.awaiting, id);
    LookupWithout(m.heap, m.taken, id);
  }

  lemma LookupWithout(heap: map<Addr, Timer>, ids: set<Id>, id: Id)
    requires OnHeap(heap, ids) && OnlyAt(ids, id)
    ensures OnHeap(heap - {id.addr}, ids - {id}) && Lookup(heap - {id.addr}, ids - {id}) == Lookup(heap, ids) - {id}
    ensures id !in ids ==> ids - {id} == ids && Lookup(heap - {id.addr}, ids) == Lookup(heap, ids)
  {
    assert id !in ids ==> ids - {id} == ids;
  }

  // cancelInLoop on a timer that is not in the queue, while callbacks run
  lemma RememberRefines(m: Memory, id: Id)
    requires Good(m) && id !in m.active && m.calling
    ensures Good(m.(canceling := m.canceling + {id}))
    ensures Queue(m.(canceling := m.canceling + {id})) == Queue(m).(canceled := Queue(m).canceled + {id})
  {
  }

  // ---- getExpired ----

  function IdOf(heap: map<Addr, Timer>, e: Entry): Id
    requires 0 <= e.addr < UINTPTR_MAX && e.addr in heap
  {
    Id(e.addr, heap[e.addr].sequence)
  }

  function IdsOf(heap: map<Addr, Timer>, es: seq<Entry>): (ids: seq<Id>)
    requires forall e <- es :: 0 <= e.addr < UINTPTR_MAX && e.addr in heap
    ensures |ids| == |es| && forall i | 0 <= i < |es| :: ids[i] == IdOf(heap, es[i])
  {
    seq(|es|, i requires 0 <= i < |es| => IdOf(heap, es[i]))
  }

  function SetOf(ids: seq<Id>): set<Id> {
    set id <- ids
  }

  // Walking a batch front to back.
  lemma SetOfStep(ids: seq<Id>, i: nat)
    requires i < |ids| && OnceEach(ids)
    ensures SetOf(ids[..i + 1]) == SetOf(ids[..i]) + {ids[i]} && SetOf(ids[i + 1..]) == SetOf(ids[i..]) - {ids[i]}
    ensures ids[i] in SetOf(ids[i..]) && ids[i] !in SetOf(ids[..i]) && ids[i] in SetOf(ids)
  {
    assert ids[..i + 1] == ids[..i] + [ids[i]];
    assert ids[i..] == [ids[i]] + ids[i + 1..];
  }

  lemma SetOfEnds(ids: seq<Id>)
    ensures SetOf(ids[..0]) == {} && SetOf(ids[0..]) == SetOf(ids)
    ensures SetOf(ids[..|ids|]) == SetOf(ids) && SetOf(ids[|ids|..]) == {}
  {
    assert ids[0..] == ids && ids[..|ids|] == ids;
  }

  function Sentry(now: int): Entry {
    Entry(now, UINTPTR_MAX)
  }

  lemma EntriesHaveOwners(heap: map<Addr, Timer>, timers: seq<Entry>, active: set<Id>)
    requires Indexed(heap, timers, active)
    ensures Increasing(timers)
    ensures forall e <- timers :: EntryOf(heap, active, e)
    ensures forall e <- timers :: 0 <= e.addr < UINTPTR_MAX && e.addr in heap
  {
    assert forall e <- timers :: EntryOf(heap, active, e);
  }

  // The prefix that getExpired takes, as identities.
  function Expired(m: Memory, now: int): seq<Id>
    requires Good(m)
  {
    EntriesHaveOwners(m.heap, m.timers, m.active);
    IdsOf(m.heap, m.timers[..LowerBound(m.timers, Sentry(now))])
  }

  function Expire(m: Memory, now: int): Memory
    requires Good(m)
  {
    var due := SetOf(Expired(m, now));
    m.(timers := m.timers[LowerBound(m.timers, Sentry(now))..], active := m.active - due, taken := due)
  }

  /** The sentry splits the queue exactly at `now`, in the order the callbacks will run. */
  lemma ExpiredIsDueOrder(m: Memory, now: int)
    requires Good(m)
    ensures IsDueOrder(Queue(m).live, now, Expired(m, now))
    ensures forall e <- m.timers[LowerBound(m.timers, Sentry(now))..] :: now < e.when
  {
    hide Owned, LowerBound;
    var n, ids, live := LowerBound(m.timers, Sentry(now)), Expired(m, now), Queue(m).live;
    EntriesHaveOwners(m.heap, m.timers, m.active);
    forall i | 0 <= i < n ensures Due(live, now, ids[i]) && live[ids[i]].expiration == m.timers[i].when {
      assert m.timers[i] in m.timers && EntryOf(m.heap, m.active, m.timers[i]);
      assert Less(m.timers[i], Sentry(now));
    }
    forall i, j | 0 <= i < j < n ensures Before(live, ids[i], ids[j]) {
      assert Due(live, now, ids[i]) && Due(live, now, ids[j]);
      assert Less(m.timers[i], m.timers[j]);
    }
    forall id | Due(live, now, id) ensures id in ids {
      var e := Entry(m.heap[id.addr].expiration, id.addr);
      assert e in m.timers;
      var i :| 0 <= i < |m.timers| && m.timers[i] == e;
      assert Less(e, Sentry(now));
      assert ids[i] == id;
    }
    forall i | n <= i < |m.timers| ensures now < m.timers[i].when {
      assert m.timers[i] in m.timers && !Less(m.timers[i], Sentry(now));
    }
  }

  lemma SplitLookup(heap: map<Addr, Timer>, active: set<Id>, now: int, due: set<Id>)
    requires OnHeap(heap, active) && forall id :: id in due <==> Due(Lookup(heap, active), now, id)
    ensures due <= active && OnHeap(heap, active - due) && OnHeap(heap, due)
    ensures var live := Lookup(heap, active);
      && Lookup(heap, active - due) == (map id | id in live && live[id].expiration > now :: live[id])
      && Lookup(heap, due) == (map id | id in live && live[id].expiration <= now :: live[id])
  {
  }

  lemma ExpiredMembers(m: Memory, now: int)
    requires Good(m)
    ensures forall e <- m.timers[LowerBound(m.timers, Sentry(now))..] :: now < e.when
    ensures forall id :: id in Expire(m, now).taken <==> Due(Queue(m).live, now, id)
  {
    ExpiredIsDueOrder(m, now);
  }

  lemma ExpireKeepsIndexed(m: Memory, now: int)
    requires Good(m)
    ensures Indexed(m.heap, Expire(m, now).timers, Expire(m, now).active)
  {
    hide IsDueOrder, Expired;
    EntriesHaveOwners(m.heap, m.timers, m.active);
    ExpiredMembers(m, now);
    var x, n := Expire(m, now), LowerBound(m.timers, Sentry(now));
    forall i | n <= i < |m.timers| ensures EntryOf(m.heap, x.active, m.timers[i]) {
      assert m.timers[i] in m.timers && EntryOf(m.heap, m.active, m.timers[i]);
      assert m.timers[i] in m.timers[n..];
      assert !Due(Queue(m).live, now, IdOf(m.heap, m.timers[i]));
    }
    forall id <- x.active ensures Entry(m.heap[id.addr].expiration, id.addr) in x.timers {
      var e := Entry(m.heap[id.addr].expiration, id.addr);
      assert e in m.timers && !Due(Queue(m).live, now, id);
      var i :| 0 <= i < |m.timers| && m.timers[i] == e;
      assert i >= n;
    }
  }

  // The assertion in getExpired's loop: each taken entry is in activeTimers_ until its turn.
  lemma AmongActive(m: Memory, now: int, i: nat)
    requires Good(m) && i < |Expired(m, now)|
    ensures Expired(m, now)[i] in m.active - SetOf(Expired(m, now)[..i])
  {
    ExpiredIsDueOrder(m, now);
    var ids := Expired(m, now);
    assert Due(Queue(m).live, now, ids[i]);
    forall j | 0 <= j < i ensures ids[j] != ids[i] {
      assert Before(Queue(m).live, ids[j], ids[i]);
    }
  }

  lemma ExpiredPrefix(m: Memory, now: int)
    requires Good(m)
    ensures Increasing(m.timers)
    ensures var end := LowerBound(m.timers, Sentry(now));
      && (end == |m.timers| || now < m.timers[end].when)
      && (forall e <- m.timers[..end] :: 0 <= e.addr < UINTPTR_MAX && e.addr in m.heap)
      && IdsOf(m.heap, m.timers[..end]) == Expired(m, now)
  {
    EntriesHaveOwners(m.heap, m.timers, m.active);
    ExpiredIsDueOrder(m, now);
    var end := LowerBound(m.timers, Sentry(now));
    assert end < |m.timers| ==> m.timers[end] in m.timers[end..];
  }

  lemma ExpireRefines(m: Memory, now: int)
    requires Good(m) && m.taken == {} && !m.calling
    ensures Good(Expire(m, now)) && Good(Expire(m, now).(calling := true, canceling := {}))
    ensures Queue(Expire(m, now).(calling := true, canceling := {})) == Take(Queue(m), now)
  {
    hide Owned, Indexed, LowerBound, Expired, Lookup, OnHeap;
    OwnersOnHeap(m.heap, m.active, m.awaiting, m.taken, m.created);
    ExpiredMembers(m, now);
    SplitLookup(m.heap, m.active, now, Expire(m, now).taken);
    ExpireKeepsIndexed(m, now);
    ExpireKeepsOwned(m, Expire(m, now).taken);
  }

  lemma ExpireKeepsOwned(m: Memory, due: set<Id>)
    requires Good(m) && m.taken == {} && due <= m.active
    ensures Owned(m.heap, m.active - due, m.awaiting, due, m.created)
  {
    forall a <- m.heap ensures Id(a, m.heap[a].sequence) in (m.active - due) + m.awaiting + due {
      assert Id(a, m.heap[a].sequence) in m.active + m.awaiting + m.taken;
    }
  }

  /** Everything handleRead relies on when its callbacks start. */
  lemma BatchStarts(m: Memory, now: int)
    requires Good(m) && m.taken == {} && !m.calling
    ensures Good(Expire(m, now)) && Good(Expire(m, now).(calling := true, canceling := {}))
    ensures Queue(Expire(m, now).(calling := true, canceling := {})) == Take(Queue(m), now)
    ensures Inv(Queue(m)) && Expired(m, now) == DueOrder(Queue(m).live, now)
    ensures OnceEach(Expired(m, now)) && Expire(m, now).taken == SetOf(Expired(m, now))
  {
    hide Good, Queue, Inv, DueOrder;
    QueueInv(m);
    InvAddresses(Queue(m));
    ExpireRefines(m, now);
    ExpiredIsDueOrder(m, now);
    DueOrderUnique(Queue(m).live, now, Expired(m, now), DueOrder(Queue(m).live, now));
  }

  // ---- reset ----

  lemma BatchIsTaken(m: Memory)
    requires Good(m)
    ensures Queue(m).batch.Keys == m.taken
    ensures forall id <- m.taken ::
      id.addr in m.heap && Queue(m).batch[id] == Info(m.heap[id.addr].expiration, m.heap[id.addr].interval)
  {
  }

  // callingExpiredTimers_ = false
  lemma StopCalling(m: Memory)
    requires Good(m) && m.calling
    ensures Good(m.(calling := false)) && Queue(m).canceled == m.canceling
    ensures Queue(m.(calling := false)) == Finishing(Queue(m), 0, {})
    ensures forall now :: Finishing(Queue(m), now, {}) == Finishing(Queue(m), 0, {})
  {
    forall now { FinishingEnds(Queue(m), now); }
  }

  // `delete` of a timer that is not rescheduled
  function Dispose(m: Memory, id: Id): Memory {
    m.(heap := m.heap - {id.addr}, taken := m.taken - {id})
  }

  lemma DisposeRefines(m: Memory, id: Id)
    requires Good(m) && id in m.taken
    ensures Good(Dispose(m, id))
    ensures Queue(Dispose(m, id)) == Queue(m).(batch := Queue(m).batch - {id})
  {
    hide Owned, Indexed, OnHeap, Lookup;
    OwnersOnHeap(m.heap, m.active, m.awaiting, m.taken, m.created);
    OneOwner(m.heap, m.active, m.awaiting, m.taken, m.created, id);
    OwnedAfterDelete(m.heap, m.active, m.awaiting, m.taken, m.created, id);
    IndexedElsewhere(m.heap, m.heap - {id.addr}, m.timers, m.active);
    assert m.awaiting - {id} == m.awaiting && m.active - {id} == m.active;
    LookupWithout(m.heap, m.active, id);
    LookupWithout(m.heap, m.awaiting, id);
    LookupWithout(m.heap, m.taken, id);
  }

  // `restart(now)` of a taken timer
  function Restarted(m: Memory, id: Id, now: int): Memory
    requires id.addr in m.heap
  {
    m.(heap := m.heap[id.addr := m.heap[id.addr].Restart(now)])
  }

  lemma RestartKeepsOwned(m: Memory, id: Id, now: int)
    requires Good(m) && id in m.taken
    ensures Owned(Restarted(m, id, now).heap, m.active, m.awaiting, m.taken, m.created)
  {
    var h := Restarted(m, id, now).heap;
    forall a <- h ensures Id(a, h[a].sequence) in m.active + m.awaiting + m.taken {
      assert Id(a, m.heap[a].sequence) in m.active + m.awaiting + m.taken;
    }
  }

  lemma RestartKeepsGood(m: Memory, id: Id, now: int)
    requires Good(m) && id in m.taken
    ensures Good(Restarted(m, id, now))
    ensures forall x <- m.active + m.awaiting + m.taken | x != id ::
              x.addr in m.heap && x.addr in Restarted(m, id, now).heap
                  && Restarted(m, id, now).heap[x.addr] == m.heap[x.addr]
  {
    hide Owned, Indexed;
    OwnersOnHeap(m.heap, m.active, m.awaiting, m.taken, m.created);
    OneOwner(m.heap, m.active, m.awaiting, m.taken, m.created, id);
    RestartKeepsOwned(m, id, now);
    IndexedElsewhere(m.heap, Restarted(m, id, now).heap, m.timers, m.active);
  }

  lemma RescheduleRefines(m: Memory, id: Id, now: int)
    requires Good(m) && id in m.taken && m.heap[id.addr].Repeat()
    ensures Good(Restarted(m, id, now)) && Good(Index(Restarted(m, id, now), id))
    ensures var info := Info(now + m.heap[id.addr].interval, m.heap[id.addr].interval);
      Queue(Index(Restarted(m, id, now), id)) ==
          Queue(m).(live := Queue(m).live[id := info], batch := Queue(m).batch - {id})
  {
    hide Owned, Indexed, Insert;
    OwnersOnHeap(m.heap, m.active, m.awaiting, m.taken, m.created);
    var r := Restarted(m, id, now);
    RestartKeepsGood(m, id, now);
    IndexKeepsGood(r, id);
    OwnersOnHeap(r.heap, r.active, r.awaiting, r.taken, r.created);
    assert m.awaiting - {id} == m.awaiting;
    assert Lookup(r.heap, m.active) == Lookup(m.heap, m.active);
    assert Lookup(r.heap, m.awaiting) == Lookup(m.heap, m.awaiting);
    assert Lookup(r.heap, m.taken - {id}) == Lookup(m.heap, m.taken) - {id};
  }

  /** The queue when the timers in `done` have been rescheduled or deleted. */
  ghost function Finishing(t: Timers, now: int, done: set<Id>): Timers {
    t.(live := t.live + (map id | id in t.batch && id in done && Rescheduled(t, id) ::
         Info(now + t.batch[id].interval, t.batch[id].interval)),
       batch := t.batch - done,
       calling := false,
       canceled := {})
  }

  lemma FinishingEnds(t: Timers, now: int)
    ensures Finishing(t, now, t.batch.Keys) == Finish(t, now)
    ensures Finishing(t, now, {}) == t.(calling := false, canceled := {})
  {
    assert t.live + (map id | id in t.batch && id in t.batch.Keys && Rescheduled(t, id) ::
        Info(now + t.batch[id].interval, t.batch[id].interval))
        == t.live + (map id | id in t.batch && Rescheduled(t, id) ::
        Info(now + t.batch[id].interval, t.batch[id].interval));
  }

  lemma FinishingStep(t: Timers, now: int, done: set<Id>, id: Id)
    requires id in t.batch && id !in done
    ensures var q := Finishing(t, now, done);
      Finishing(t, now, done + {id}) ==
        if Rescheduled(t, id)
        then q.(live := q.live[id := Info(now + t.batch[id].interval, t.batch[id].interval)], batch := q.batch - {id})
        else q.(batch := q.batch - {id})
  {
  }

  /** One turn of reset's loop. */
  function ResetTimer(m: Memory, id: Id, now: int): Memory
    requires Good(m) && id in m.taken
  {
    if m.heap[id.addr].Repeat() && id !in m.canceling then
      RestartKeepsGood(m, id, now);
      Index(Restarted(m, id, now), id)
    else Dispose(m, id)
  }

  lemma ResetTimerRefines(m: Memory, id: Id, now: int, t: Timers, done: set<Id>)
    requires Good(m) && id in m.taken && Queue(m) == Finishing(t, now, done)
    requires id in t.batch && id !in done && t.canceled == m.canceling
    ensures id.addr in m.heap && Good(ResetTimer(m, id, now)) && Good(Restarted(m, id, now))
    ensures Queue(ResetTimer(m, id, now)) == Finishing(t, now, done + {id})
  {
    hide Good, Queue, Finishing, Index, Restarted, Dispose;
    BatchIsTaken(m);
    RestartKeepsGood(m, id, now);
    FinishingBatch(t, now, done);
    FinishingStep(t, now, done, id);
    assert t.batch[id] == Info(m.heap[id.addr].expiration, m.heap[id.addr].interval);
    if m.heap[id.addr].Repeat() && id !in m.canceling {
      RescheduleRefines(m, id, now);
    } else {
      DisposeRefines(m, id);
    }
  }

  lemma FinishingBatch(t: Timers, now: int, done: set<Id>)
    ensures Finishing(t, now, done).batch == t.batch - done
  {
  }
}
