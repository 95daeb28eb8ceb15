/** Totals over the records of a key-value store, independent of the order they are read in. */
module Totals {

  ghost function Pick<K, V>(m: map<K, V>): (k: K)
    requires m != map[]
    ensures k in m
  {
    var k :| k in m.Keys;
    k
  }

  ghost function Total<K, V>(m: map<K, V>, f: (K, V) -> int): int
    decreases |m|
  {
    if m == map[] then 0 else
    var k := Pick(m);
    f(k, m[k]) + Total(m - {k}, f)
  }

  /** Any record may be read first. */
  lemma {:induction false} TotalSplit<K, V>(m: map<K, V>, f: (K, V) -> int, k: K)
    requires k in m
    ensures Total(m, f) == f(k, m[k]) + Total(m - {k}, f)
    decreases |m|
  {
    var p := Pick(m);
    if p != k {
      assert (m - {p}) - {k} == (m - {k}) - {p};
      TotalSplit(m - {p}, f, k);
      TotalSplit(m - {k}, f, p);
    }
  }

  ghost function At<K, V>(m: map<K, V>, f: (K, V) -> int, k: K): int {
    if k in m then f(k, m[k]) else 0
  }

  /** Storing one record changes the total by that record's change. */
  lemma TotalUpdate<K, V>(m: map<K, V>, f: (K, V) -> int, k: K, v: V)
    ensures Total(m[k := v], f) == Total(m, f) - At(m, f, k) + f(k, v)
  {
    var n := m[k := v];
    TotalSplit(n, f, k);
    assert n - {k} == m - {k};
    if k in m {
      TotalSplit(m, f, k);
    } else {
      assert m - {k} == m;
    }
  }

  lemma TotalDelete<K, V>(m: map<K, V>, f: (K, V) -> int, k: K)
    ensures Total(m - {k}, f) == Total(m, f) - At(m, f, k)
  {
    if k in m {
      TotalSplit(m, f, k);
    } else {
      assert m - {k} == m;
    }
  }

  lemma {:induction false} TotalNonNegative<K, V>(m: map<K, V>, f: (K, V) -> int)
    requires forall k :: k in m ==> f(k, m[k]) >= 0
    ensures Total(m, f) >= 0
    decreases |m|
  {
    if m != map[] {
      var p := Pick(m);
      TotalNonNegative(m - {p}, f);
    }
  }

  lemma TotalAtLeast<K, V>(m: map<K, V>, f: (K, V) -> int, k: K)
    requires k in m
    requires forall j :: j in m ==> f(j, m[j]) >= 0
    ensures f(k, m[k]) <= Total(m, f)
  {
    TotalSplit(m, f, k);
    TotalNonNegative(m - {k}, f);
  }

  /** Totals of two measures compare as the measures do. */
  lemma {:induction false} TotalMonotone<K, V>(m: map<K, V>, f: (K, V) -> int, g: (K, V) -> int)
    requires forall k :: k in m ==> f(k, m[k]) <= g(k, m[k])
    ensures Total(m, f) <= Total(m, g)
    decreases |m|
  {
    if m != map[] {
      var p := Pick(m);
      TotalMonotone(m - {p}, f, g);
    }
  }

  /** Measures that agree on the entries have the same total. */
  lemma TotalSame<K, V>(m: map<K, V>, f: (K, V) -> int, g: (K, V) -> int)
    requires forall k :: k in m ==> f(k, m[k]) == g(k, m[k])
    ensures Total(m, f) == Total(m, g)
  {
    TotalMonotone(m, f, g);
    TotalMonotone(m, g, f);
  }

  /** The total of a part of a map is that of the whole, counting only what is in the part. */
  lemma {:induction false} TotalPart<K, V>(m: map<K, V>, part: map<K, V>, f: (K, V) -> int, g: (K, V) -> int)
    requires forall k :: k in part ==> k in m && part[k] == m[k]
    requires forall k :: k in m ==> g(k, m[k]) == if k in part then f(k, m[k]) else 0
    ensures Total(part, f) == Total(m, g)
    decreases |m|
  {
    if m == map[] {
      assert part == map[];
    } else {
      var p := Pick(m);
      TotalPart(m - {p}, part - {p}, f, g);
      TotalDelete(part, f, p);
    }
  }

  lemma {:induction false} TotalAdd<K, V>(m: map<K, V>, f: (K, V) -> int, g: (K, V) -> int, h: (K, V) -> int)
    requires forall k :: k in m ==> h(k, m[k]) == f(k, m[k]) + g(k, m[k])
    ensures Total(m, h) == Total(m, f) + Total(m, g)
    decreases |m|
  {
    if m != map[] {
      TotalAdd(m - {Pick(m)}, f, g, h);
    }
  }

  lemma {:induction false} TotalZero<K, V>(m: map<K, V>, f: (K, V) -> int)
    requires forall k :: k in m ==> f(k, m[k]) == 0
    ensures Total(m, f) == 0
    decreases |m|
  {
    if m != map[] {
      TotalZero(m - {Pick(m)}, f);
    }
  }

  /** A list that visits every key of a store exactly once: an iteration order. */
  ghost predicate Enumerates<K, V>(order: seq<K>, m: map<K, V>) {
    && (forall i :: 0 <= i < |order| ==> order[i] in m)
    && (forall k :: k in m ==> k in order)
    && (forall i, j :: 0 <= i < j < |order| ==> order[i] != order[j])
  }

  /** The sum over the keys of a list, in order. */
  ghost function Listed<K, V>(m: map<K, V>, f: (K, V) -> int, order: seq<K>): int {
    if order == [] then 0 else At(m, f, order[0]) + Listed(m, f, order[1..])
  }

  lemma {:induction false} ListedWithout<K, V>(m: map<K, V>, f: (K, V) -> int, order: seq<K>, k: K)
    requires k !in order
    ensures Listed(m - {k}, f, order) == Listed(m, f, order)
  {
    if order != [] {
      ListedWithout(m, f, order[1..], k);
      assert order[0] in order;
    }
  }

  /** Reading every record once, in any order, gives the total. */
  lemma {:induction false} TotalListed<K, V>(m: map<K, V>, f: (K, V) -> int, order: seq<K>)
    requires Enumerates(order, m)
    ensures Total(m, f) == Listed(m, f, order)
    decreases |order|
  {
    if order == [] {
      assert m == map[];
    } else {
      EnumeratesRest(order, m);
      TotalListed(m - {order[0]}, f, order[1..]);
      ListedWithout(m, f, order[1..], order[0]);
      TotalSplit(m, f, order[0]);
    }
  }

  lemma EnumeratesRest<K, V>(order: seq<K>, m: map<K, V>)
    requires Enumerates(order, m) && order != []
    ensures Enumerates(order[1..], m - {order[0]})
  {
    forall k | k in m - {order[0]}
      ensures k in order[1..]
    {
      var i :| 0 <= i < |order| && order[i] == k;
      assert order[1..][i - 1] == k;
    }
  }

  lemma UpdateTwice<K, V>(m: map<K, V>, k: K, x: V, y: V)
    ensures m[k := x][k := y] == m[k := y]
  {
  }
}
