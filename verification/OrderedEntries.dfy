/** The std::set of (expiration, pointer) pairs as the strictly increasing sequence it iterates over. */
module OrderedEntries {

  datatype Entry = Entry(when: int, addr: int)

  predicate Less(x: Entry, y: Entry) {
    x.when < y.when || (x.when == y.when && x.addr < y.addr)
  }

  ghost predicate Increasing(s: seq<Entry>) {
    forall i, j | 0 <= i < j < |s| :: Less(s[i], s[j])
  }

  function LowerBound(s: seq<Entry>, e: Entry): (n: nat)
    requires Increasing(s)
    ensures n <= |s|
    ensures forall i | 0 <= i < n :: Less(s[i], e)
    ensures forall i | n <= i < |s| :: !Less(s[i], e)
  {
    if s == [] || !Less(s[0], e) then 0 else 1 + LowerBound(s[1..], e)
  }

  function Insert(s: seq<Entry>, e: Entry): (r: seq<Entry>)
    requires Increasing(s)
    ensures Increasing(r)
    ensures forall x :: x in r <==> x == e || x in s
    ensures |r| == |s| + if e in s then 0 else 1
    ensures r[0] == if s == [] || Less(e, s[0]) then e else s[0]
  {
    var n := LowerBound(s, e);
    if n < |s| && s[n] == e then s
    else
      assert forall x :: x in s <==> x in s[..n] || x in s[n..];
      assert e !in s;
      s[..n] + [e] + s[n..]
  }

  function Erase(s: seq<Entry>, e: Entry): (r: seq<Entry>)
    requires Increasing(s)
    ensures Increasing(r)
    ensures forall x :: x in r <==> x != e && x in s
    ensures |r| == |s| - if e in s then 1 else 0
    ensures r != [] ==> s != [] && s[0].when <= r[0].when
  {
    var n := LowerBound(s, e);
    if n < |s| && s[n] == e then
      assert forall x :: x in s <==> x in s[..n] || x == e || x in s[n + 1..];
      s[..n] + s[n + 1..]
    else
      assert e !in s;
      s
  }
}
