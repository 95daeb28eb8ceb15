/**
  Taking a payout out of queued withdrawals: the latest entries first, after leaving
  alone as much of them as is needed to cover purchased shield.
*/
module QueuePayout {
  import opened Split
  import opened WithdrawQueue

  /** What is left of `ws` after skipping `skip` units and then taking `take`, counted from the end. */
  function Trim(ws: seq<Entry>, skip: nat, take: nat): seq<Entry> {
    if ws == [] then [] else
    var last := ws[|ws| - 1];
    var taken := Reachable(last.amount, skip, take);
    Trim(ws[..|ws| - 1], Monus(skip, last.amount), take - taken) + Rest(last, taken)
  }

  /** How much can be taken out of `amount` units when `skip` of them are left alone. */
  function Reachable(amount: nat, skip: nat, take: nat): (taken: nat)
    ensures taken <= take && taken <= amount
  {
    if amount <= skip then 0 else if amount - skip <= take then amount - skip else take
  }

  /** `x` less `y`, but not below zero. */
  function Monus(x: nat, y: nat): nat {
    if x <= y then 0 else x - y
  }

  function Rest(e: Entry, taken: nat): (r: seq<Entry>)
    requires taken <= e.amount
    ensures |r| <= 1
  {
    if e.amount == taken then [] else [e.(amount := e.amount - taken)]
  }

  lemma {:induction false} TrimNothing(ws: seq<Entry>, skip: nat)
    requires Positive(ws)
    ensures Trim(ws, skip, 0) == ws
  {
    if ws != [] {
      TrimNothing(ws[..|ws| - 1], Monus(skip, ws[|ws| - 1].amount));
    }
  }

  lemma RestMeasure(e: Entry, taken: nat, f: Entry -> nat, counted: bool)
    requires taken <= e.amount
    requires forall x: Entry :: x.owner == e.owner && x.time == e.time ==> f(x) == if counted then x.amount else 0
    ensures Measure(Rest(e, taken), f) == if counted then e.amount - taken else 0
  {
    var r := Rest(e, taken);
    if r != [] {
      assert r[1..] == [];
    }
  }

  /** Trimming takes all it can reach from the whole. */
  lemma {:induction false} TrimTotal(ws: seq<Entry>, skip: nat, take: nat)
    ensures Measure(Trim(ws, skip, take), Amount())
         == Measure(ws, Amount()) - Reachable(Measure(ws, Amount()), skip, take)
  {
    if ws != [] {
      var front, last := ws[..|ws| - 1], ws[|ws| - 1];
      var taken := Reachable(last.amount, skip, take);
      var skip', take' := Monus(skip, last.amount), take - taken;
      var before := Trim(front, skip', take');
      assert Trim(ws, skip, take) == before + Rest(last, taken);
      hide Trim, Measure;
      TrimTotal(front, skip', take');
      MeasureLast(ws, Amount());
      MeasureAppend(before, Rest(last, taken), Amount());
      RestMeasure(last, taken, Amount(), true);
      ReachableStep(Measure(front, Amount()), last.amount, skip, take);
    }
  }

  lemma {:induction false} AllDue(ws: seq<Entry>, t: int)
    requires forall e :: e in ws ==> e.time <= t
    ensures Measure(ws, DueBy(t)) == Measure(ws, Amount())
  {
    if ws != [] {
      AllDue(ws[1..], t);
    }
  }

  lemma {:induction false} TrimMembers(ws: seq<Entry>, skip: nat, take: nat)
    ensures forall e :: e in Trim(ws, skip, take) ==>
              e.amount > 0 && exists w :: w in ws && w.time == e.time && w.owner == e.owner && e.amount <= w.amount
    requires Positive(ws)
  {
    if ws != [] {
      var front, last := ws[..|ws| - 1], ws[|ws| - 1];
      var taken := Reachable(last.amount, skip, take);
      var before := Trim(front, Monus(skip, last.amount), take - taken);
      assert Positive(front);
      TrimMembers(front, Monus(skip, last.amount), take - taken);
      forall e | e in Trim(ws, skip, take)
        ensures e.amount > 0 && exists w :: w in ws && w.time == e.time && w.owner == e.owner && e.amount <= w.amount
      {
        if e in before {
          var w :| w in front && w.time == e.time && w.owner == e.owner && e.amount <= w.amount;
          assert w in ws;
        } else {
          assert e in Rest(last, taken);
          assert last in ws;
        }
      }
    }
  }

  /** What stays due by a time, of `total` units of which `due` are due by then, after trimming. */
  function StillDue(total: nat, due: nat, skip: nat, take: nat): int {
    due - (Reachable(total, skip, take) - Reachable(Max(total - due, 0), skip, take))
  }

  lemma StillDueStep(total: nat, due: nat, amount: nat, skip: nat, take: nat)
    requires due <= total
    ensures StillDue(total + amount, due, skip, take)
         == StillDue(total, due, Monus(skip, amount), take - Reachable(amount, skip, take))
  {
    ReachableStep(total, amount, skip, take);
    ReachableStep(total - due, amount, skip, take);
  }

  lemma DueWithinTotal(ws: seq<Entry>, t: int)
    ensures Measure(ws, DueBy(t)) <= Measure(ws, Amount())
  {
    MeasureMonotone(ws, DueBy(t), Amount());
  }

  /**
    Latest first: by any time `t`, the amount due shrinks only by what the entries
    completing after `t` could not supply.
  */
  lemma {:induction false} TrimDue(ws: seq<Entry>, skip: nat, take: nat, t: int)
    requires Sorted(ws) && Positive(ws)
    ensures Measure(Trim(ws, skip, take), DueBy(t))
         == StillDue(Measure(ws, Amount()), Measure(ws, DueBy(t)), skip, take)
  {
    if ws != [] {
      var front, last := ws[..|ws| - 1], ws[|ws| - 1];
      assert Sorted(front) && Positive(front);
      hide Trim, Measure;
      if last.time <= t {
        TrimEarly(ws, skip, take, t);
      } else {
        TrimLate(ws, skip, take, t);
        TrimDue(front, Monus(skip, last.amount), take - Reachable(last.amount, skip, take), t);
        DueWithinTotal(front, t);
        StillDueStep(Measure(front, Amount()), Measure(front, DueBy(t)), last.amount, skip, take);
      }
    }
  }

  /** When everything completes by `t`, all of the trimming shows by `t`. */
  lemma TrimEarly(ws: seq<Entry>, skip: nat, take: nat, t: int)
    requires Sorted(ws) && Positive(ws) && ws != [] && ws[|ws| - 1].time <= t
    ensures Measure(ws, DueBy(t)) == Measure(ws, Amount())
    ensures Measure(Trim(ws, skip, take), DueBy(t))
         == Measure(ws, Amount()) - Reachable(Measure(ws, Amount()), skip, take)
  {
    TrimMembers(ws, skip, take);
    AllDue(ws, t);
    AllDue(Trim(ws, skip, take), t);
    TrimTotal(ws, skip, take);
  }

  lemma ReachableStep(total: nat, amount: nat, skip: nat, take: nat)
    ensures Reachable(total + amount, skip, take)
         == Reachable(amount, skip, take) + Reachable(total, Monus(skip, amount), take - Reachable(amount, skip, take))
  {
  }

  /** An entry completing after `t` contributes nothing to what is due by `t`, trimmed or not. */
  lemma TrimLate(ws: seq<Entry>, skip: nat, take: nat, t: int)
    requires ws != [] && ws[|ws| - 1].time > t
    ensures var front, last := ws[..|ws| - 1], ws[|ws| - 1];
            && Measure(ws, Amount()) == Measure(front, Amount()) + last.amount
            && Measure(ws, DueBy(t)) == Measure(front, DueBy(t))
            && Measure(Trim(ws, skip, take), DueBy(t))
            == Measure(Trim(front, Monus(skip, last.amount), take - Reachable(last.amount, skip, take)), DueBy(t))
  {
    var front, last := ws[..|ws| - 1], ws[|ws| - 1];
    var taken := Reachable(last.amount, skip, take);
    MeasureLast(ws, Amount());
    MeasureLast(ws, DueBy(t));
    MeasureAppend(Trim(front, Monus(skip, last.amount), take - taken), Rest(last, taken), DueBy(t));
    RestMeasure(last, taken, DueBy(t), false);
  }

  // ----- Editing one queued entry in place -----

  lemma OwnRemove(q: seq<Entry>, j: nat, a: Address)
    requires j < |q| && q[j].owner == a
    ensures multiset(Own(RemoveAt(q, j), a)) == multiset(Own(q, a)) - multiset{q[j]}
    ensures Others(RemoveAt(q, j), a) == Others(q, a)
    ensures q[j] in multiset(Own(q, a))
  {
    assert q == q[..j] + ([q[j]] + q[j + 1..]);
    OwnAppend(q[..j], [q[j]] + q[j + 1..], a);
    OwnAppend([q[j]], q[j + 1..], a);
    OwnAppend(q[..j], q[j + 1..], a);
    assert Own([q[j]], a) == [q[j]];
    assert Others([q[j]], a) == [];
  }

  lemma OwnSet(q: seq<Entry>, j: nat, e: Entry, a: Address)
    requires j < |q| && q[j].owner == a && e.owner == a
    ensures multiset(Own(q[j := e], a)) == multiset(Own(q, a)) - multiset{q[j]} + multiset{e}
    ensures Others(q[j := e], a) == Others(q, a)
  {
    OwnRemove(q, j, a);
    OwnRemove(q[j := e], j, a);
    assert RemoveAt(q, j) == RemoveAt(q[j := e], j);
  }

  lemma EditSorted(q: seq<Entry>, j: nat, e: Entry)
    requires Sorted(q) && j < |q| && q[j].time == e.time
    ensures Sorted(q[j := e]) && Sorted(RemoveAt(q, j))
  {
  }

  /** The first entry of its time slice that equals `e`. */
  method FindInSlice(q: seq<Entry>, e: Entry) returns (j: nat)
    requires e in q
    ensures j < |q| && q[j] == e
    ensures forall i :: 0 <= i < j ==> q[i] != e
  {
    j := 0;
    while q[j] != e
      invariant j < |q| && e in q[j..]
      invariant forall i :: 0 <= i < j ==> q[i] != e
      decreases |q| - j
    {
      j := j + 1;
    }
  }

  /** A queue as one owner sees it: the others' entries in order, its own in no particular order. */
  datatype Sides = Sides(others: seq<Entry>, own: multiset<Entry>)

  ghost function SidesOf(q: seq<Entry>, a: Address): Sides {
    Sides(Others(q, a), multiset(Own(q, a)))
  }

  ghost function TrimmedSides(q: seq<Entry>, a: Address, skip: nat, take: nat): Sides {
    Sides(Others(q, a), multiset(Trim(Own(q, a), skip, take)))
  }

  /** `q'` is `q` with the payout taken out of the entries of `a`, all others left alone. */
  ghost predicate TrimmedFor(q: seq<Entry>, q': seq<Entry>, a: Address, skip: nat, take: nat) {
    SidesOf(q', a) == TrimmedSides(q, a, skip, take) && Sorted(q')
  }

  /** What a trimmed queue still owes in total and to its owner. */
  lemma TrimmedOwes(q: seq<Entry>, q': seq<Entry>, a: Address, skip: nat, take: nat)
    requires TrimmedFor(q, q', a, skip, take)
    requires skip + take <= Measure(q, OwnedBy(a))
    ensures Measure(q', Amount()) == Measure(q, Amount()) - take
    ensures Measure(q', OwnedBy(a)) == Measure(q, OwnedBy(a)) - take
  {
    OwnMeasure(q, a);
    OwnMeasure(q', a);
    TrimTotal(Own(q, a), skip, take);
    MeasurePermuted(Own(q', a), Trim(Own(q, a), skip, take), Amount());
    OwnSplit(q, a, Amount());
    OwnSplit(q', a, Amount());
  }

  lemma RestDue(e: Entry, taken: nat, t: int)
    requires taken <= e.amount
    ensures Measure(Rest(e, taken), DueBy(t)) <= DueBy(t)(e)
  {
    if taken < e.amount {
      MeasureOne(e.(amount := e.amount - taken), DueBy(t));
    }
  }

  lemma {:induction false} TrimNoSooner(ws: seq<Entry>, skip: nat, take: nat, t: int)
    ensures Measure(Trim(ws, skip, take), DueBy(t)) <= Measure(ws, DueBy(t))
  {
    if ws != [] {
      var front, last := ws[..|ws| - 1], ws[|ws| - 1];
      var taken := Reachable(last.amount, skip, take);
      var trimmed := Trim(front, Monus(skip, last.amount), take - taken);
      TrimNoSooner(front, Monus(skip, last.amount), take - taken, t);
      assert Trim(ws, skip, take) == trimmed + Rest(last, taken);
      assert front + [last] == ws;
      hide Trim, Reachable, Monus;
      MeasureAppend(front, [last], DueBy(t));
      MeasureAppend(trimmed, Rest(last, taken), DueBy(t));
      MeasureOne(last, DueBy(t));
      RestDue(last, taken, t);
    }
  }

  /** A payout out of the queue brings no withdrawal forward. */
  lemma TrimmedDue(q: seq<Entry>, q': seq<Entry>, a: Address, skip: nat, take: nat, t: int)
    requires TrimmedFor(q, q', a, skip, take)
    ensures Measure(q', DueBy(t)) <= Measure(q, DueBy(t))
  {
    OwnSplit(q, a, DueBy(t));
    OwnSplit(q', a, DueBy(t));
    TrimNoSooner(Own(q, a), skip, take, t);
    MeasurePermuted(Own(q', a), Trim(Own(q, a), skip, take), DueBy(t));
  }

  /** A measure that does not count the entries of `a` is the same when the others' entries are. */
  lemma SameOthers(q: seq<Entry>, q': seq<Entry>, a: Address, f: Entry -> nat)
    requires Others(q', a) == Others(q, a) && (forall e: Entry :: e.owner == a ==> f(e) == 0)
    ensures Measure(q', f) == Measure(q, f)
  {
    OwnSplit(q, a, f);
    OwnSplit(q', a, f);
    ForeignMeasure(Own(q, a), a, f);
    ForeignMeasure(Own(q', a), a, f);
  }

  lemma TrimmedEntry(q: seq<Entry>, q': seq<Entry>, a: Address, skip: nat, take: nat, e: Entry)
    requires Positive(q) && TrimmedFor(q, q', a, skip, take) && e in q'
    ensures e.amount > 0 && (e.owner == a || e in q)
  {
    if e.owner == a {
      OwnMembers(q', a, e);
      OwnPositive(q, a);
      TrimMembers(Own(q, a), skip, take);
      assert e in multiset(Own(q', a));
      assert e in Trim(Own(q, a), skip, take);
    } else {
      OthersMembers(q', a, e);
    }
  }

  lemma TrimmedMeasures(q: seq<Entry>, q': seq<Entry>, a: Address, skip: nat, take: nat)
    requires Positive(q) && TrimmedFor(q, q', a, skip, take)
    requires skip + take <= Measure(q, OwnedBy(a))
    ensures Positive(q')
    ensures forall e :: e in q' ==> e.owner == a || e in q
    ensures Measure(q', Amount()) == Measure(q, Amount()) - take
    ensures Measure(q', OwnedBy(a)) == Measure(q, OwnedBy(a)) - take
    ensures forall b :: b != a ==> Measure(q', OwnedBy(b)) == Measure(q, OwnedBy(b))
  {
    TrimmedOwes(q, q', a, skip, take);
    forall b | b != a
      ensures Measure(q', OwnedBy(b)) == Measure(q, OwnedBy(b))
    {
      SameOthers(q, q', a, OwnedBy(b));
    }
    forall e | e in q'
      ensures e.amount > 0 && (e.owner == a || e in q)
    {
      TrimmedEntry(q, q', a, skip, take, e);
    }
  }

  /** `q'` is `q` with one entry of its owner replaced by what is left of it. */
  ghost predicate Edited(q: seq<Entry>, q': seq<Entry>, e: Entry, left: seq<Entry>) {
    && Sorted(q')
    && Others(q', e.owner) == Others(q, e.owner)
    && multiset(Own(q', e.owner)) == multiset(Own(q, e.owner)) - multiset{e} + multiset(left)
  }

  lemma EditedRemove(q: seq<Entry>, j: nat)
    requires Sorted(q) && j < |q|
    ensures Edited(q, RemoveAt(q, j), q[j], [])
  {
    OwnRemove(q, j, q[j].owner);
    EditSorted(q, j, q[j]);
  }

  lemma EditedSet(q: seq<Entry>, j: nat, e: Entry)
    requires Sorted(q) && j < |q| && q[j].owner == e.owner && q[j].time == e.time
    ensures Edited(q, q[j := e], q[j], [e])
  {
    OwnSet(q, j, e, e.owner);
    EditSorted(q, j, e);
  }

  /** Replaces an entry of its owner's slice by what is left of it. */
  method EditSlice(q: seq<Entry>, e: Entry, taken: nat) returns (q': seq<Entry>)
    requires Sorted(q) && e in q && taken <= e.amount
    ensures Edited(q, q', e, Rest(e, taken))
  {
    var j := FindInSlice(q, e);
    if e.amount == taken {
      EditedRemove(q, j);
      q' := RemoveAt(q, j);
      assert Rest(e, taken) == [];
    } else {
      var e' := e.(amount := e.amount - taken);
      EditedSet(q, j, e');
      q' := q[j := e'];
      assert Rest(e, taken) == [e'];
    }
  }

  // ----- The loop over a provider's withdrawals, from latest to oldest -----

  lemma TakeSnoc(ws: seq<Entry>, i: nat)
    requires i < |ws|
    ensures ws[..i + 1] == ws[..i] + [ws[i]]
  {
  }

  /** What trimming leaves, and what it could not take. */
  datatype Trimming = Trimming(left: seq<Entry>, shortfall: int)

  /** The outcome when the first `i` entries are still to be trimmed and the rest has left `done`. */
  ghost function Outcome(ws: seq<Entry>, i: nat, skip: nat, take: nat, done: seq<Entry>): Trimming
    requires i <= |ws|
  {
    Trimming(Trim(ws[..i], skip, take) + done, take - Reachable(Measure(ws[..i], Amount()), skip, take))
  }

  ghost predicate Progress(ws: seq<Entry>, skip0: nat, take0: nat, i: nat, skip: nat, take: nat, done: seq<Entry>) {
    i <= |ws| && Outcome(ws, i, skip, take, done) == Outcome(ws, |ws|, skip0, take0, [])
  }

  lemma ProgressStep(ws: seq<Entry>, skip0: nat, take0: nat, i: nat, e: Entry, skip: nat, take: nat, done: seq<Entry>,
                     skip': nat, take': nat, done': seq<Entry>)
    requires i < |ws| && e == ws[i] && Progress(ws, skip0, take0, i + 1, skip, take, done)
    requires skip' == Monus(skip, e.amount)
    requires take' == take - Reachable(e.amount, skip, take)
    requires done' == Rest(e, Reachable(e.amount, skip, take)) + done
    ensures Progress(ws, skip0, take0, i, skip', take', done')
  {
    TrimSnoc(ws[..i], e, skip, take);
    TakeSnoc(ws, i);
    assert Trim(ws[..i], skip', take') + Rest(e, Reachable(e.amount, skip, take)) + done == Trim(ws[..i], skip', take') + done';
  }

  lemma TrimSnoc(ws: seq<Entry>, e: Entry, skip: nat, take: nat)
    ensures var taken := Reachable(e.amount, skip, take);
            && Trim(ws + [e], skip, take) == Trim(ws, Monus(skip, e.amount), take - taken) + Rest(e, taken)
            && take - Reachable(Measure(ws + [e], Amount()), skip, take)
            == take - taken - Reachable(Measure(ws, Amount()), Monus(skip, e.amount), take - taken)
  {
    assert (ws + [e])[..|ws|] == ws;
    MeasureAppend(ws, [e], Amount());
    ReachableStep(Measure(ws, Amount()), e.amount, skip, take);
  }

  lemma ProgressDone(ws: seq<Entry>, skip0: nat, take0: nat, i: nat, skip: nat, take: nat, done: seq<Entry>)
    requires Positive(ws) && Progress(ws, skip0, take0, i, skip, take, done) && (i == 0 || take == 0)
    ensures Trim(ws, skip0, take0) == ws[..i] + done
    ensures take == take0 - Reachable(Measure(ws, Amount()), skip0, take0)
  {
    assert ws[..|ws|] == ws;
    if take == 0 {
      TrimNothing(ws[..i], skip);
    }
  }

  /** The queue holds the others' entries, the first `i` withdrawals of `a` and what was left of the rest. */
  ghost predicate PartlyEdited(q0: seq<Entry>, q: seq<Entry>, a: Address, ws: seq<Entry>, done: seq<Entry>) {
    Sorted(q) && SidesOf(q, a) == Sides(Others(q0, a), multiset(ws) + multiset(done))
  }

  lemma PartlyEditedStep(q0: seq<Entry>, q: seq<Entry>, q': seq<Entry>, a: Address, ws: seq<Entry>, e: Entry, left: seq<Entry>, done: seq<Entry>)
    requires e.owner == a && PartlyEdited(q0, q, a, ws + [e], done) && Edited(q, q', e, left)
    ensures PartlyEdited(q0, q', a, ws, left + done)
  {
    assert multiset(left + done) == multiset(left) + multiset(done);
    assert multiset(ws + [e]) == multiset(ws) + multiset{e};
  }

  lemma PartlyEditedHas(q0: seq<Entry>, q: seq<Entry>, a: Address, ws: seq<Entry>, e: Entry, done: seq<Entry>)
    requires PartlyEdited(q0, q, a, ws + [e], done)
    ensures e in q
  {
    assert e in multiset(ws + [e]);
    assert e in multiset(Own(q, a));
  }

  lemma PartlyEditedSkip(q0: seq<Entry>, q: seq<Entry>, a: Address, ws: seq<Entry>, e: Entry, done: seq<Entry>)
    requires PartlyEdited(q0, q, a, ws + [e], done)
    ensures PartlyEdited(q0, q, a, ws, [e] + done)
  {
    assert multiset([e] + done) == multiset{e} + multiset(done);
    assert multiset(ws + [e]) == multiset(ws) + multiset{e};
  }

  lemma OwnPositive(q: seq<Entry>, a: Address)
    requires Positive(q)
    ensures Positive(Own(q, a))
  {
  }

  lemma {:induction false} OthersMembers(q: seq<Entry>, a: Address, e: Entry)
    requires e in q && e.owner != a
    ensures e in Others(q, a)
  {
    if q[0] != e {
      assert e in q[1..];
      OthersMembers(q[1..], a, e);
    }
  }

  lemma {:induction false} ForeignMeasure(q: seq<Entry>, a: Address, f: Entry -> nat)
    requires forall i :: 0 <= i < |q| ==> q[i].owner == a
    requires forall e: Entry :: e.owner == a ==> f(e) == 0
    ensures Measure(q, f) == 0
  {
    if q != [] {
      ForeignMeasure(q[1..], a, f);
    }
  }

  /** One turn of the loop: cover purchased shield with the entry first, then take from it. */
  method TakeFromEntry(ghost queue: seq<Entry>, q: seq<Entry>, ghost ws: seq<Entry>, e: Entry, uncovered: nat, left: nat, ghost done: seq<Entry>)
    returns (q': seq<Entry>, uncovered': nat, left': nat, ghost done': seq<Entry>)
    requires e.amount > 0 && PartlyEdited(queue, q, e.owner, ws + [e], done)
    ensures uncovered' == Monus(uncovered, e.amount)
    ensures left' == left - Reachable(e.amount, uncovered, left)
    ensures done' == Rest(e, Reachable(e.amount, uncovered, left)) + done
    ensures PartlyEdited(queue, q', e.owner, ws, done')
  {
    var available := Max(e.amount - uncovered, 0);
    uncovered' := Max(uncovered - e.amount, 0);
    if available == 0 {
      assert Reachable(e.amount, uncovered, left) == 0 && Rest(e, 0) == [e];
      PartlyEditedSkip(queue, q, e.owner, ws, e, done);
      q', left', done' := q, left, [e] + done;
    } else {
      var taken := Min(left, available);
      assert taken == Reachable(e.amount, uncovered, left);
      PartlyEditedHas(queue, q, e.owner, ws, e, done);
      left' := left - taken;
      q' := EditSlice(q, e, taken);
      PartlyEditedStep(queue, q, q', e.owner, ws, e, Rest(e, taken), done);
      done' := Rest(e, taken) + done;
    }
  }

  /** Takes a payout out of the queued withdrawals of `a`, from latest to oldest. */
  method TakeFromWithdraws(queue: seq<Entry>, a: Address, skip: nat, take: nat) returns (q: seq<Entry>, left: nat)
    requires Sorted(queue) && Positive(queue)
    ensures left == take - Reachable(Measure(queue, OwnedBy(a)), skip, take)
    ensures TrimmedFor(queue, q, a, skip, take)
  {
    var withdraws := Own(queue, a);
    OwnPositive(queue, a);
    OwnMeasure(queue, a);
    var uncovered: nat := skip;
    q, left := queue, take;
    var i := |withdraws|;
    ghost var done: seq<Entry> := [];
    assert withdraws[..i] == withdraws;
    while i > 0 && left > 0
      invariant Progress(withdraws, skip, take, i, uncovered, left, done)
      invariant PartlyEdited(queue, q, a, withdraws[..i], done)
    {
      TakeSnoc(withdraws, i - 1);
      ghost var uncovered0, left0, done0 := uncovered, left, done;
      i := i - 1;
      var e := withdraws[i];
      q, uncovered, left, done := TakeFromEntry(queue, q, withdraws[..i], e, uncovered, left, done);
      ProgressStep(withdraws, skip, take, i, e, uncovered0, left0, done0, uncovered, left, done);
    }
    ProgressDone(withdraws, skip, take, i, uncovered, left, done);
  }
}
