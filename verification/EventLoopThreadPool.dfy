/** The pool of I/O loops and its round robin. Loop 0 is the base loop, loops 1 to n are the threads' own. */
module EventLoopThreadPool {
  type LoopId = nat

  const BASE_LOOP: LoopId := 0

  /** The loop that call number `call` of getNextLoop, counted from 0, returns. */
  function Nth(n: nat, call: nat): LoopId {
    if n == 0 then BASE_LOOP else 1 + call % n
  }

  class EventLoopThreadPool {
    const numThreads: nat
    var loops: seq<LoopId>
    var next: nat
    var started: bool
    ghost var calls: nat

    ghost predicate Valid()
      reads this
    {
      && (started ==> |loops| == numThreads && forall i | 0 <= i < numThreads :: loops[i] == i + 1)
      && (!started ==> loops == [] && calls == 0 && next == 0)
      && (numThreads == 0 ==> next == 0)
      && (numThreads > 0 ==> next == calls % numThreads)
    }

    constructor (numThreads: nat)
      ensures Valid() && !started && calls == 0 && this.numThreads == numThreads
    {
      this.numThreads := numThreads;
      loops, next, started, calls := [], 0, false, 0;
    }

    method Start()
      requires Valid() && !started
      modifies this
      ensures Valid() && started && |loops| == numThreads && calls == 0
    {
      started := true;
      for i := 0 to numThreads
        invariant started && |loops| == i && next == 0 && calls == 0
        invariant forall j | 0 <= j < i :: loops[j] == j + 1
      {
        loops := loops + [i + 1];
      }
    }

    method GetNextLoop() returns (loop: LoopId)
      requires Valid() && started
      modifies this`next, this`calls
      ensures Valid() && calls == old(calls) + 1
      ensures loop == Nth(numThreads, old(calls))
    {
      loop := BASE_LOOP;
      calls := calls + 1;
      if loops != [] {
        loop := loops[next];
        NextIndex(calls - 1, numThreads);
        next := next + 1;
        if next >= |loops| {
          next := 0;
        }
      }
    }
  }

  lemma NextIndex(call: nat, n: nat)
    requires n > 0
    ensures (call + 1) % n == if call % n + 1 >= n then 0 else call % n + 1
    ensures (call + 1) / n == call / n + if call % n + 1 >= n then 1 else 0
  {
    var q, r := call / n, call % n;
    assert call == q * n + r;
    if r + 1 < n {
      Quotient(call + 1, n, q, r + 1);
    } else {
      assert call + 1 == (q + 1) * n;
      Quotient(call + 1, n, q + 1, 0);
    }
  }

  lemma Quotient(x: nat, n: nat, q: nat, r: nat)
    requires x == q * n + r && r < n
    ensures x / n == q && x % n == r
  {
    SameQuotient(x / n, x % n, q, r, n);
  }

  lemma SameQuotient(q: nat, r: nat, p: nat, t: nat, n: nat)
    requires q * n + r == p * n + t && r < n && t < n
    ensures q == p && r == t
  {
    TimesGrows(q + 1, p, n);
    TimesGrows(p + 1, q, n);
    assert (q + 1) * n == q * n + n && (p + 1) * n == p * n + n;
  }

  lemma TimesGrows(a: int, b: int, n: nat)
    ensures a <= b ==> a * n <= b * n
  {
    if a <= b {
      assert b * n == a * n + (b - a) * n;
    }
  }

  /** How often `loop` is returned by the first m calls. */
  function Chosen(n: nat, m: nat, loop: LoopId): nat {
    if m == 0 then 0 else Chosen(n, m - 1, loop) + if Nth(n, m - 1) == loop then 1 else 0
  }

  /** After m calls every loop of the pool was returned m / n times, and the first m % n of them once more. */
  lemma {:induction false} RoundRobinIsBalanced(n: nat, m: nat, loop: LoopId)
    requires 1 <= loop <= n
    ensures Chosen(n, m, loop) == m / n + if loop - 1 < m % n then 1 else 0
  {
    if m == 0 {
      Quotient(0, n, 0, 0);
    } else {
      RoundRobinIsBalanced(n, m - 1, loop);
      NextIndex(m - 1, n);
    }
  }

  lemma PastOneRound(n: nat, m: nat)
    requires n > 0
    ensures m >= n ==> m / n > 0
  {
    assert m == (m / n) * n + m % n;
    TimesGrows(m / n, 0, n);
  }

  /** Two loops of a pool never differ by more than one connection handed out. */
  lemma LoopsStayEven(n: nat, m: nat, a: LoopId, b: LoopId)
    requires 1 <= a <= n && 1 <= b <= n
    ensures Chosen(n, m, a) <= Chosen(n, m, b) + 1
    ensures m >= n ==> Chosen(n, m, a) > 0
  {
    RoundRobinIsBalanced(n, m, a);
    RoundRobinIsBalanced(n, m, b);
    hide Chosen;
    PastOneRound(n, m);
  }
}
