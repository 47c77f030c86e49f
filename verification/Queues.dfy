/** How often something is in a queue. */
module Queues {
  function Times<T(==)>(queue: seq<T>, t: T): nat {
    multiset(queue)[t]
  }

  lemma TimesAppend<T>(queue: seq<T>, task: T, t: T)
    ensures Times(queue + [task], t) == Times(queue, t) + if t == task then 1 else 0
    ensures Times([], t) == 0
  {
  }

  lemma TimesConcat<T>(a: seq<T>, b: seq<T>, t: T)
    ensures Times(a + b, t) == Times(a, t) + Times(b, t)
  {
  }

  lemma TimesHead<T>(queue: seq<T>, t: T)
    requires queue != []
    ensures Times(queue, t) == Times(queue[1..], t) + if t == queue[0] then 1 else 0
  {
    assert queue == [queue[0]] + queue[1..];
  }
}
