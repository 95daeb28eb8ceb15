/**
  Delaying queued withdrawals so that a provider's collateral stays until the end of a lock:
  of the withdrawals maturing by then, the latest move to the end until enough is held back.
*/
module QueueDelay {
  import opened Split
  import opened WithdrawQueue
  import opened QueuePayout

  /** `ws` with its last entries, worth at least `amount`, moved to time `end`. */
  function Delay(ws: seq<Entry>, amount: nat, end: int): seq<Entry> {
    if ws == [] || amount == 0 then ws else
    var last := ws[|ws| - 1];
    Delay(ws[..|ws| - 1], Monus(amount, last.amount), end) + [last.(time := end)]
  }

  lemma {:induction false} DelayTotal(ws: seq<Entry>, amount: nat, end: int)
    ensures Measure(Delay(ws, amount, end), Amount()) == Measure(ws, Amount())
  {
    if ws != [] && amount != 0 {
      var front, last := ws[..|ws| - 1], ws[|ws| - 1];
      DelayTotal(front, Monus(amount, last.amount), end);
      MeasureLast(ws, Amount());
      MeasureAppend(Delay(front, Monus(amount, last.amount), end), [last.(time := end)], Amount());
    }
  }

  /** Before the end, at most what need not be held back is due. */
  lemma {:induction false} DelayHolds(ws: seq<Entry>, amount: nat, end: int, t: int)
    requires t < end
    ensures Measure(Delay(ws, amount, end), DueBy(t)) <= Monus(Measure(ws, Amount()), amount)
  {
    if ws == [] || amount == 0 {
      DueWithinTotal(ws, t);
    } else {
      var front, last := ws[..|ws| - 1], ws[|ws| - 1];
      var amount', moved := Monus(amount, last.amount), last.(time := end);
      DelayHolds(front, amount', end, t);
      MeasureLast(ws, Amount());
      MeasureAppend(Delay(front, amount', end), [moved], DueBy(t));
      assert Measure([moved], DueBy(t)) == 0 by {
        assert [moved][1..] == [];
      }
    }
  }

  lemma {:induction false} DelayMembers(ws: seq<Entry>, amount: nat, end: int, e: Entry)
    requires e in Delay(ws, amount, end)
    ensures exists w :: w in ws && w.owner == e.owner && w.amount == e.amount
  {
    if ws == [] || amount == 0 {
      assert e in ws;
    } else {
      var front, last := ws[..|ws| - 1], ws[|ws| - 1];
      var before := Delay(front, Monus(amount, last.amount), end);
      if e in before {
        DelayMembers(front, Monus(amount, last.amount), end, e);
        var w :| w in front && w.owner == e.owner && w.amount == e.amount;
        assert w in ws;
      } else {
        assert e == last.(time := end);
        assert last in ws;
      }
    }
  }

  // ----- Moving one entry -----

  lemma {:induction false} InsertOwn(q: seq<Entry>, e: Entry)
    ensures Others(Insert(q, e), e.owner) == Others(q, e.owner)
    ensures multiset(Own(Insert(q, e), e.owner)) == multiset(Own(q, e.owner)) + multiset{e}
  {
    if q == [] || q[|q| - 1].time <= e.time {
      OwnAppend(q, [e], e.owner);
      assert Own([e], e.owner) == [e] && Others([e], e.owner) == [];
    } else {
      var front, last := q[..|q| - 1], q[|q| - 1];
      InsertOwn(front, e);
      OwnAppend(Insert(front, e), [last], e.owner);
      OwnAppend(front, [last], e.owner);
      assert front + [last] == q;
    }
  }

  /** The last entry of its time slice that equals `e`. */
  method FindInSliceFromEnd(q: seq<Entry>, e: Entry) returns (j: nat)
    requires e in q
    ensures j < |q| && q[j] == e
    ensures forall i :: j < i < |q| ==> q[i] != e
  {
    j := |q| - 1;
    while q[j] != e
      invariant j < |q| && e in q[..j + 1]
      invariant forall i :: j < i < |q| ==> q[i] != e
      decreases j
    {
      assert e in q[..j];
      j := j - 1;
    }
  }

  /** Takes an entry off its slice and queues it again for `end`. */
  method MoveEntry(q: seq<Entry>, e: Entry, end: int) returns (q': seq<Entry>)
    requires Sorted(q) && e in q
    ensures Edited(q, q', e, [e.(time := end)])
  {
    var j := FindInSliceFromEnd(q, e);
    EditedRemove(q, j);
    InsertOwn(RemoveAt(q, j), e.(time := end));
    InsertSorted(RemoveAt(q, j), e.(time := end));
    q' := Insert(RemoveAt(q, j), e.(time := end));
  }

  // ----- The loop over the candidates, from latest to oldest -----

  ghost predicate Delaying(ws: seq<Entry>, later: seq<Entry>, amount0: nat, end: int, i: nat, amount: nat, done: seq<Entry>) {
    && i <= |ws|
    && Delay(ws, amount0, end) + later == Delay(ws[..i], amount, end) + done
    && Monus(amount0, Measure(ws, Amount())) == Monus(amount, Measure(ws[..i], Amount()))
  }

  lemma DelayingStep(ws: seq<Entry>, later: seq<Entry>, amount0: nat, end: int, i: nat, amount: nat, done: seq<Entry>,
                     e: Entry, amount': nat, done': seq<Entry>)
    requires i < |ws| && e == ws[i] && Delaying(ws, later, amount0, end, i + 1, amount, done) && amount > 0
    requires amount' == Monus(amount, e.amount) && done' == [e.(time := end)] + done
    ensures Delaying(ws, later, amount0, end, i, amount', done')
  {
    TakeSnoc(ws, i);
    MeasureAppend(ws[..i], [e], Amount());
    assert ws[..i + 1][..i] == ws[..i];
    assert Delay(ws[..i + 1], amount, end) == Delay(ws[..i], amount', end) + [e.(time := end)];
    assert Delay(ws[..i], amount', end) + [e.(time := end)] + done == Delay(ws[..i], amount', end) + done';
  }

  /** The entries of `a` in a queue whose candidates were delayed. */
  ghost function DelayedSides(q: seq<Entry>, a: Address, n: nat, amount: nat, end: int): Sides
    requires n <= |q|
  {
    Sides(Others(q, a), multiset(Delay(Own(q[..n], a), amount, end) + Own(q[n..], a)))
  }

  /** Delayed entries mature later, never earlier. */
  lemma {:induction false} DelayLater(ws: seq<Entry>, amount: nat, end: int, t: int)
    requires forall e :: e in ws ==> e.time <= end
    ensures Measure(Delay(ws, amount, end), DueBy(t)) <= Measure(ws, DueBy(t))
  {
    if ws != [] && amount != 0 {
      var front, last := ws[..|ws| - 1], ws[|ws| - 1];
      var amount', moved := Monus(amount, last.amount), last.(time := end);
      DelayLater(front, amount', end, t);
      MeasureLast(ws, DueBy(t));
      MeasureAppend(Delay(front, amount', end), [moved], DueBy(t));
      assert last in ws;
      assert [moved][1..] == [];
    }
  }

  lemma {:induction false} OwnedDue(q: seq<Entry>, a: Address, t: int)
    ensures Measure(q, OwnedDueBy(a, t)) == Measure(Own(q, a), DueBy(t))
  {
    if q != [] {
      OwnedDue(q[1..], a, t);
      if q[0].owner == a {
        assert Own(q, a)[1..] == Own(q[1..], a);
      }
    }
  }

  /** `q'` is `q` after a delay of the entries of `a` among its first `n`, those due by `end`. */
  ghost predicate DelayedFor(q: seq<Entry>, q': seq<Entry>, a: Address, n: nat, amount: nat, end: int) {
    && n <= |q|
    && (forall i :: 0 <= i < n ==> q[i].time <= end) && (forall i :: n <= i < |q| ==> q[i].time > end)
    && Sorted(q') && SidesOf(q', a) == DelayedSides(q, a, n, amount, end)
  }

  /** Any measure of the owner's entries splits at `n`, before and after. */
  lemma DelayedCut(q: seq<Entry>, q': seq<Entry>, a: Address, n: nat, amount: nat, end: int, f: Entry -> nat)
    requires DelayedFor(q, q', a, n, amount, end)
    ensures Measure(Own(q, a), f) == Measure(Own(q[..n], a), f) + Measure(Own(q[n..], a), f)
    ensures Measure(Own(q', a), f) == Measure(Delay(Own(q[..n], a), amount, end), f) + Measure(Own(q[n..], a), f)
  {
    var ws, later := Own(q[..n], a), Own(q[n..], a);
    OwnAppend(q[..n], q[n..], a);
    assert q[..n] + q[n..] == q;
    MeasureAppend(ws, later, f);
    MeasurePermuted(Own(q', a), Delay(ws, amount, end) + later, f);
    MeasureAppend(Delay(ws, amount, end), later, f);
  }

  /** What the owner is due by any time only shrinks. */
  lemma DelayedDue(q: seq<Entry>, q': seq<Entry>, a: Address, n: nat, amount: nat, end: int, t: int)
    requires DelayedFor(q, q', a, n, amount, end)
    ensures Measure(q', OwnedDueBy(a, t)) <= Measure(q, OwnedDueBy(a, t))
  {
    OwnedDue(q, a, t);
    OwnedDue(q', a, t);
    DelayedCut(q, q', a, n, amount, end, DueBy(t));
    DelayLater(Own(q[..n], a), amount, end, t);
  }

  /** Before the end the owner is due no more than what need not be held back. */
  lemma DelayedHolds(q: seq<Entry>, q': seq<Entry>, a: Address, n: nat, amount: nat, end: int, t: int)
    requires DelayedFor(q, q', a, n, amount, end) && t < end
    ensures Measure(q, OwnedDueBy(a, end)) == Measure(Own(q[..n], a), Amount())
    ensures Measure(q', OwnedDueBy(a, t)) <= Monus(Measure(q, OwnedDueBy(a, end)), amount)
  {
    var ws, later := Own(q[..n], a), Own(q[n..], a);
    OwnedDue(q, a, end);
    OwnedDue(q', a, t);
    DelayedCut(q, q', a, n, amount, end, DueBy(t));
    DelayedCut(q, q', a, n, amount, end, DueBy(end));
    AllDue(ws, end);
    NoneDue(later, end);
    NoneDue(later, t);
    DelayHolds(ws, amount, end, t);
  }

  lemma DelayedEntry(q: seq<Entry>, q': seq<Entry>, a: Address, n: nat, amount: nat, end: int, e: Entry)
    requires Positive(q) && DelayedFor(q, q', a, n, amount, end) && e in q'
    ensures e.amount > 0 && (e in q || exists w :: w in q && w.owner == e.owner)
  {
    if e.owner == a {
      OwnMembers(q', a, e);
      var ws, later := Own(q[..n], a), Own(q[n..], a);
      assert e in multiset(Delay(ws, amount, end) + later);
      if e in Delay(ws, amount, end) {
        DelayMembers(ws, amount, end, e);
        var w :| w in ws && w.owner == e.owner && w.amount == e.amount;
        assert w in q;
      } else {
        assert e in later;
        assert e in q[n..];
      }
    } else {
      OthersMembers(q', a, e);
    }
  }

  /** A delay moves no amount from one owner to another, nor in or out of the queue. */
  lemma DelayedOwes(q: seq<Entry>, q': seq<Entry>, a: Address, n: nat, amount: nat, end: int)
    requires DelayedFor(q, q', a, n, amount, end)
    ensures Measure(q', Amount()) == Measure(q, Amount())
    ensures forall b :: Measure(q', OwnedBy(b)) == Measure(q, OwnedBy(b))
  {
    hide Measure, Delay, Own;
    DelayedCut(q, q', a, n, amount, end, Amount());
    DelayTotal(Own(q[..n], a), amount, end);
    OwnSplit(q, a, Amount());
    OwnSplit(q', a, Amount());
    OwnMeasure(q, a);
    OwnMeasure(q', a);
    forall b | b != a
      ensures Measure(q', OwnedBy(b)) == Measure(q, OwnedBy(b))
    {
      SameOthers(q, q', a, OwnedBy(b));
    }
  }

  /** The number of entries due by `t`. */
  method CountDue(q: seq<Entry>, t: int) returns (n: nat)
    requires Sorted(q)
    ensures n <= |q| && (forall i :: 0 <= i < n ==> q[i].time <= t) && (forall i :: n <= i < |q| ==> q[i].time > t)
  {
    n := 0;
    while n < |q| && q[n].time <= t
      invariant n <= |q| && forall i :: 0 <= i < n ==> q[i].time <= t
    {
      n := n + 1;
    }
  }

  /** Delays withdrawals of `a` among the first `n` entries; `left` is what they cannot hold back. */
  method DelayWithdraws(queue: seq<Entry>, a: Address, n: nat, amount: nat, end: int) returns (q: seq<Entry>, left: nat)
    requires Sorted(queue) && n <= |queue|
    ensures Sorted(q) && SidesOf(q, a) == DelayedSides(queue, a, n, amount, end)
    ensures left == Monus(amount, Measure(Own(queue[..n], a), Amount()))
  {
    var withdraws := Own(queue[..n], a);
    ghost var later := Own(queue[n..], a);
    OwnAppend(queue[..n], queue[n..], a);
    assert queue[..n] + queue[n..] == queue;
    var i := |withdraws|;
    q, left := queue, amount;
    ghost var done := later;
    assert withdraws[..i] == withdraws;
    while i > 0 && left > 0
      invariant Delaying(withdraws, later, amount, end, i, left, done)
      invariant PartlyEdited(queue, q, a, withdraws[..i], done)
    {
      i := i - 1;
      var e := withdraws[i];
      TakeSnoc(withdraws, i);
      ghost var q0, left0, done0 := q, left, done;
      PartlyEditedHas(queue, q, a, withdraws[..i], e, done);
      q := MoveEntry(q, e, end);
      done := [e.(time := end)] + done;
      PartlyEditedStep(queue, q0, q, a, withdraws[..i], e, [e.(time := end)], done0);
      left := if left <= e.amount then 0 else left - e.amount;
      DelayingStep(withdraws, later, amount, end, i, left0, done0, e, left, done);
    }
  }
}
