/**
  The withdraw queue of the shield module: the entries of all time slices, in store order,
  that is by completion time and, within one time, by insertion.
*/
module WithdrawQueue {
  import opened Split

  type Address = nat

  datatype Entry = Entry(owner: Address, amount: nat, time: int)

  /** Entries appear in order of completion time. */
  ghost predicate Sorted(q: seq<Entry>) {
    forall i, j :: 0 <= i < j < |q| ==> q[i].time <= q[j].time
  }

  ghost predicate Positive(q: seq<Entry>) {
    forall i :: 0 <= i < |q| ==> q[i].amount > 0
  }

  // ----- Measures: sums of a quantity over the entries -----

  ghost function Measure(q: seq<Entry>, f: Entry -> nat): nat {
    if q == [] then 0 else f(q[0]) + Measure(q[1..], f)
  }

  ghost function Amount(): Entry -> nat {
    (e: Entry) => e.amount
  }

  ghost function OwnedBy(a: Address): Entry -> nat {
    (e: Entry) => if e.owner == a then e.amount else 0
  }

  ghost function DueBy(t: int): Entry -> nat {
    (e: Entry) => if e.time <= t then e.amount else 0
  }

  ghost function OwnedDueBy(a: Address, t: int): Entry -> nat {
    (e: Entry) => if e.owner == a && e.time <= t then e.amount else 0
  }

  lemma {:induction false} MeasureAppend(p: seq<Entry>, q: seq<Entry>, f: Entry -> nat)
    ensures Measure(p + q, f) == Measure(p, f) + Measure(q, f)
  {
    if p == [] {
      assert p + q == q;
    } else {
      assert (p + q)[1..] == p[1..] + q;
      MeasureAppend(p[1..], q, f);
    }
  }

  lemma MeasureLast(q: seq<Entry>, f: Entry -> nat)
    requires q != []
    ensures Measure(q, f) == Measure(q[..|q| - 1], f) + f(q[|q| - 1])
  {
    assert q == q[..|q| - 1] + [q[|q| - 1]];
    MeasureAppend(q[..|q| - 1], [q[|q| - 1]], f);
    MeasureOne(q[|q| - 1], f);
  }

  lemma MeasureOne(e: Entry, f: Entry -> nat)
    ensures Measure([e], f) == f(e)
  {
    assert [e][1..] == [];
  }

  function RemoveAt(q: seq<Entry>, j: nat): seq<Entry>
    requires j < |q|
  {
    q[..j] + q[j + 1..]
  }

  lemma MeasureRemove(q: seq<Entry>, j: nat, f: Entry -> nat)
    requires j < |q|
    ensures Measure(q, f) == Measure(RemoveAt(q, j), f) + f(q[j])
  {
    hide Measure;
    var front, back := q[..j], q[j + 1..];
    assert q == front + ([q[j]] + back);
    MeasureAppend(front, [q[j]] + back, f);
    MeasureAppend([q[j]], back, f);
    MeasureAppend(front, back, f);
    MeasureOne(q[j], f);
  }

  lemma {:induction false} NoneDue(q: seq<Entry>, t: int)
    requires forall e :: e in q ==> e.time > t
    ensures Measure(q, DueBy(t)) == 0
  {
    if q != [] {
      NoneDue(q[1..], t);
    }
  }

  /** A measure depends only on which entries there are. */
  lemma {:induction false} MeasurePermuted(p: seq<Entry>, q: seq<Entry>, f: Entry -> nat)
    requires multiset(p) == multiset(q)
    ensures Measure(p, f) == Measure(q, f)
  {
    if p == [] {
      assert |multiset(q)| == |q|;
    } else {
      MeasureAppend([p[0]], p[1..], f);
      MeasureOne(p[0], f);
      hide Measure;
      assert p[0] in multiset(q);
      var j :| 0 <= j < |q| && q[j] == p[0];
      MeasureRemove(q, j, f);
      assert p == [p[0]] + p[1..];
      assert q == q[..j] + [q[j]] + q[j + 1..];
      assert multiset(p[1..]) == multiset(p) - multiset{p[0]};
      assert multiset(RemoveAt(q, j)) == multiset(q) - multiset{p[0]};
      MeasurePermuted(p[1..], RemoveAt(q, j), f);
    }
  }

  lemma {:induction false} MeasureMonotone(q: seq<Entry>, f: Entry -> nat, g: Entry -> nat)
    requires forall e :: f(e) <= g(e)
    ensures Measure(q, f) <= Measure(q, g)
  {
    if q != [] {
      MeasureMonotone(q[1..], f, g);
    }
  }

  // ----- The entries of one provider, and those of the others -----

  function Own(q: seq<Entry>, a: Address): (r: seq<Entry>)
    ensures forall i :: 0 <= i < |r| ==> r[i].owner == a && r[i] in q
  {
    if q == [] then []
    else if q[0].owner == a then [q[0]] + Own(q[1..], a)
    else Own(q[1..], a)
  }

  function Others(q: seq<Entry>, a: Address): (r: seq<Entry>)
    ensures forall i :: 0 <= i < |r| ==> r[i].owner != a && r[i] in q
  {
    if q == [] then []
    else if q[0].owner != a then [q[0]] + Others(q[1..], a)
    else Others(q[1..], a)
  }

  lemma {:induction false} OwnAppend(p: seq<Entry>, q: seq<Entry>, a: Address)
    ensures Own(p + q, a) == Own(p, a) + Own(q, a)
    ensures Others(p + q, a) == Others(p, a) + Others(q, a)
  {
    if p == [] {
      assert p + q == q;
    } else {
      assert (p + q)[1..] == p[1..] + q;
      OwnAppend(p[1..], q, a);
    }
  }

  lemma {:induction false} OwnSplit(q: seq<Entry>, a: Address, f: Entry -> nat)
    ensures Measure(q, f) == Measure(Own(q, a), f) + Measure(Others(q, a), f)
  {
    if q != [] {
      OwnSplit(q[1..], a, f);
      if q[0].owner == a {
        assert Own(q, a)[1..] == Own(q[1..], a);
      } else {
        assert Others(q, a)[1..] == Others(q[1..], a);
      }
    }
  }

  lemma {:induction false} OwnSorted(q: seq<Entry>, a: Address)
    requires Sorted(q)
    ensures Sorted(Own(q, a))
  {
    if q != [] {
      OwnSorted(q[1..], a);
      forall i | 0 <= i < |Own(q[1..], a)|
        ensures q[0].time <= Own(q[1..], a)[i].time
      {
        assert Own(q[1..], a)[i] in q[1..];
      }
    }
  }

  lemma {:induction false} OwnMembers(q: seq<Entry>, a: Address, e: Entry)
    requires e in q && e.owner == a
    ensures e in Own(q, a)
  {
    if q[0] != e {
      assert e in q[1..];
      OwnMembers(q[1..], a, e);
    }
  }

  lemma {:induction false} OwnMeasure(q: seq<Entry>, a: Address)
    ensures Measure(Own(q, a), Amount()) == Measure(q, OwnedBy(a))
    ensures Measure(Others(q, a), OwnedBy(a)) == 0
  {
    if q != [] {
      OwnMeasure(q[1..], a);
      if q[0].owner == a {
        assert Own(q, a)[1..] == Own(q[1..], a);
      } else {
        assert Others(q, a)[1..] == Others(q[1..], a);
      }
    }
  }

  // ----- Insertion -----

  /** Appends an entry to the slice of its completion time. */
  function Insert(q: seq<Entry>, e: Entry): seq<Entry> {
    if q == [] || q[|q| - 1].time <= e.time then q + [e]
    else Insert(q[..|q| - 1], e) + [q[|q| - 1]]
  }

  lemma {:induction false} InsertAdds(q: seq<Entry>, e: Entry)
    ensures multiset(Insert(q, e)) == multiset(q) + multiset{e}
  {
    if q != [] && q[|q| - 1].time > e.time {
      assert q == q[..|q| - 1] + [q[|q| - 1]];
      InsertAdds(q[..|q| - 1], e);
    }
  }

  lemma SortedSnoc(q: seq<Entry>, e: Entry)
    requires Sorted(q)
    requires forall x :: x in q ==> x.time <= e.time
    ensures Sorted(q + [e])
  {
  }

  lemma {:induction false} InsertSorted(q: seq<Entry>, e: Entry)
    requires Sorted(q)
    ensures Sorted(Insert(q, e))
  {
    if q == [] || q[|q| - 1].time <= e.time {
      SortedSnoc(q, e);
    } else {
      var front, last := q[..|q| - 1], q[|q| - 1];
      InsertSorted(front, e);
      InsertAdds(front, e);
      forall x | x in Insert(front, e)
        ensures x.time <= last.time
      {
        assert x in multiset(Insert(front, e));
      }
      SortedSnoc(Insert(front, e), last);
    }
  }

  lemma InsertMeasure(q: seq<Entry>, e: Entry, f: Entry -> nat)
    ensures Measure(Insert(q, e), f) == Measure(q, f) + f(e)
  {
    InsertAdds(q, e);
    MeasurePermuted(Insert(q, e), q + [e], f);
    MeasureAppend(q, [e], f);
  }
}
