/**
 * Grouping maps: the key -> occurrence-count maps every collector keeps, updated with
 * the "find the entry or add it at zero, then increment" idiom, and the sum of their values.
 */
module Histogram {

  /** The count recorded under k, zero when k has never been seen. */
  function Get<K>(m: map<K, nat>, k: K): nat
  {
    if k in m then m[k] else 0
  }

  /** m with n more occurrences of k; a key is only inserted when n is positive. */
  function AddCount<K>(m: map<K, nat>, k: K, n: nat): (r: map<K, nat>)
    ensures r.Keys == if n == 0 then m.Keys else m.Keys + {k}
    ensures Get(r, k) == Get(m, k) + n
    ensures forall j :: j in m && j != k ==> r[j] == m[j]
  {
    if n == 0 then m else m[k := Get(m, k) + n]
  }

  /** Adding a and then b occurrences of k adds a + b occurrences. */
  lemma AddCountAdd<K>(m: map<K, nat>, k: K, a: nat, b: nat)
    ensures AddCount(AddCount(m, k, a), k, b) == AddCount(m, k, a + b)
  {
  }

  /** One more occurrence of k: the entry for k is looked up or added, then incremented. */
  function Bump<K>(m: map<K, nat>, k: K): (r: map<K, nat>)
  {
    AddCount(m, k, 1)
  }

  /** The histogram obtained by bumping the entry of every element of xs, in order, into m. */
  function Tabulate<K>(m: map<K, nat>, xs: seq<K>): map<K, nat>
  {
    if xs == [] then m else Bump(Tabulate(m, xs[..|xs| - 1]), xs[|xs| - 1])
  }

  /** The sum of all the counts in a histogram. */
  ghost function Sum<K>(m: map<K, nat>): nat
    decreases |m|
  {
    if m == map[] then 0
    else
      var k :| k in m;
      assert (m - {k}).Keys == m.Keys - {k};
      m[k] + Sum(m - {k})
  }

  /** Any entry can be taken out of the sum first. */
  lemma {:induction false} SumRemove<K>(m: map<K, nat>, k: K)
    requires k in m
    ensures Sum(m) == m[k] + Sum(m - {k})
    decreases |m|
  {
    var j :| j in m && Sum(m) == m[j] + Sum(m - {j});
    if j != k {
      assert (m - {j}).Keys == m.Keys - {j};
      assert (m - {k}).Keys == m.Keys - {k};
      SumRemove(m - {j}, k);
      SumRemove(m - {k}, j);
      assert m - {j} - {k} == m - {k} - {j};
    }
  }

  /** Adding n occurrences adds n to the sum. */
  lemma {:induction false} SumAddCount<K>(m: map<K, nat>, k: K, n: nat)
    ensures Sum(AddCount(m, k, n)) == Sum(m) + n
  {
    var r := AddCount(m, k, n);
    if n != 0 {
      SumRemove(r, k);
      if k in m {
        SumRemove(m, k);
        assert r - {k} == m - {k};
      } else {
        assert r - {k} == m;
      }
    }
  }

  /** The occurrences of x in a non-empty sequence: those before its last element, plus the last one. */
  lemma MultisetLast<K>(xs: seq<K>, x: K)
    requires xs != []
    ensures multiset(xs)[x] == multiset(xs[..|xs| - 1])[x] + if xs[|xs| - 1] == x then 1 else 0
  {
    assert xs == xs[..|xs| - 1] + [xs[|xs| - 1]];
  }

  /** Tabulating xs records exactly the occurrences of each key in xs on top of m. */
  lemma {:induction false} TabulateCounts<K>(m: map<K, nat>, xs: seq<K>)
    ensures forall k :: k in Tabulate(m, xs) <==> k in m || k in multiset(xs)
    ensures forall k :: Get(Tabulate(m, xs), k) == Get(m, k) + multiset(xs)[k]
    decreases |xs|
  {
    if xs != [] {
      var p, x := xs[..|xs| - 1], xs[|xs| - 1];
      TabulateCounts(m, p);
      assert xs == p + [x];
      assert multiset(xs) == multiset(p) + multiset{x};
    }
  }

  /** Tabulating xs adds |xs| to the sum of the histogram. */
  lemma {:induction false} TabulateSum<K>(m: map<K, nat>, xs: seq<K>)
    ensures Sum(Tabulate(m, xs)) == Sum(m) + |xs|
    decreases |xs|
  {
    if xs != [] {
      TabulateSum(m, xs[..|xs| - 1]);
      SumAddCount(Tabulate(m, xs[..|xs| - 1]), xs[|xs| - 1], 1);
    }
  }
}
