/** The processing order of a planning pass: commodities with a lower
    priority number first, and among equal priorities the larger demand
    first. Both planner variants use this comparator with a library sort
    that is not stable, so only "sorted" and "a permutation" are promised. */
module Ordering {

  /** The two sort keys of a commodity. */
  datatype PlanKey = PlanKey(priority: int, demand: real)

  /** The comparator: `a` goes strictly before `b`. */
  predicate Precedes(a: PlanKey, b: PlanKey)
  {
    if a.priority == b.priority then a.demand > b.demand else a.priority < b.priority
  }

  /** No element is placed after one it strictly precedes. */
  predicate SortedByPlan<T>(s: seq<T>, key: T -> PlanKey)
  {
    forall i, j :: 0 <= i < j < |s| ==> !Precedes(key(s[j]), key(s[i]))
  }

  /** The comparator is a strict weak ordering, the condition the library
      sort places on it: irreflexive, transitive, and incomparability
      (neither precedes the other) is transitive too. */
  lemma PrecedesIsStrictWeakOrder(a: PlanKey, b: PlanKey, c: PlanKey)
    ensures !Precedes(a, a)
    ensures Precedes(a, b) ==> !Precedes(b, a)
    ensures Precedes(a, b) && Precedes(b, c) ==> Precedes(a, c)
    ensures !Precedes(a, b) && !Precedes(b, a) && !Precedes(b, c) && !Precedes(c, b)
            ==> !Precedes(a, c) && !Precedes(c, a)
  {
  }

  /** Inserts `x` before the first element it strictly precedes. */
  function InsertByPlan<T>(x: T, s: seq<T>, key: T -> PlanKey): (r: seq<T>)
    requires SortedByPlan(s, key)
    ensures multiset(r) == multiset(s) + multiset{x}
    ensures SortedByPlan(r, key)
  {
    if s == [] then [x]
    else if Precedes(key(x), key(s[0])) then [x] + s
    else
      var rest := InsertByPlan(x, s[1..], key);
      assert s == [s[0]] + s[1..];
      forall j | 0 <= j < |rest| ensures !Precedes(key(rest[j]), key(s[0])) {
        assert rest[j] in multiset(rest);
        if rest[j] != x {
          var k :| 0 <= k < |s[1..]| && s[1..][k] == rest[j];
          assert s[k + 1] == rest[j];
        }
      }
      [s[0]] + rest
  }

  /** The sort the planner applies to the commodity vector: the result is a
      permutation of the input, priorities never decrease along it, and among
      equal priorities demand never increases. */
  function SortByPlan<T>(s: seq<T>, key: T -> PlanKey): (r: seq<T>)
    ensures multiset(r) == multiset(s)
    ensures SortedByPlan(r, key)
    ensures forall i, j :: 0 <= i < j < |r| ==>
              key(r[i]).priority < key(r[j]).priority
              || (key(r[i]).priority == key(r[j]).priority && key(r[i]).demand >= key(r[j]).demand)
  {
    if s == [] then []
    else
      assert s == [s[0]] + s[1..];
      InsertByPlan(s[0], SortByPlan(s[1..], key), key)
  }

  /** The values of a vector of (name, value) entries, in order. */
  function Values<V>(entries: seq<(string, V)>): (vs: seq<V>)
    ensures |vs| == |entries| && forall i :: 0 <= i < |entries| ==> vs[i] == entries[i].1
  {
    seq(|entries|, i requires 0 <= i < |entries| => entries[i].1)
  }

  /** The (name, value) vector copied out of a map: every entry once, in
      whatever order the map yields them. */
  method EntryVector<V>(m: map<string, V>) returns (v: seq<(string, V)>)
    ensures |v| == |m|
    ensures forall i :: 0 <= i < |v| ==> v[i].0 in m && m[v[i].0] == v[i].1
    ensures forall k :: k in m ==> (k, m[k]) in v
  {
    v := [];
    var pending := m.Keys;
    while pending != {}
      invariant pending <= m.Keys
      invariant |v| + |pending| == |m|
      invariant forall i :: 0 <= i < |v| ==> v[i].0 in m && m[v[i].0] == v[i].1
      invariant forall k :: k in m && k !in pending ==> (k, m[k]) in v
      decreases pending
    {
      var k :| k in pending;
      v := v + [(k, m[k])];
      pending := pending - {k};
    }
  }

  /** The entry vector of a map sorted with the comparator: every entry
      exactly once, and sorted. */
  method SortEntries<V>(m: map<string, V>, key: ((string, V)) -> PlanKey) returns (order: seq<(string, V)>)
    ensures |order| == |m|
    ensures forall i :: 0 <= i < |order| ==> order[i].0 in m && m[order[i].0] == order[i].1
    ensures forall k :: k in m ==> (k, m[k]) in order
    ensures SortedByPlan(order, key)
  {
    var entries := EntryVector(m);
    order := SortByPlan(entries, key);
    assert |order| == |multiset(order)| == |multiset(entries)| == |entries|;
    forall i | 0 <= i < |order| ensures order[i].0 in m && m[order[i].0] == order[i].1 {
      assert order[i] in multiset(entries);
      var j :| 0 <= j < |entries| && entries[j] == order[i];
    }
    forall k | k in m ensures (k, m[k]) in order {
      assert (k, m[k]) in multiset(entries);
    }
  }
}
