/** Securing collateral for a claim until the end of its lock. */
module Securing {
  import opened Dec
  import opened Split
  import opened Totals
  import opened WithdrawQueue
  import opened QueuePayout
  import opened QueueDelay
  import opened Collateral
  import opened Reimbursed

  /** Until `end`, at least `amount` of the provider's collateral stays whatever matures. */
  ghost predicate Held(l: Ledger, a: Address, amount: int, end: int) {
    a in l.providers && forall t :: t < end ==> Measure(l.queue, OwnedDueBy(a, t)) + amount <= l.providers[a].collateral
  }

  /** Only the withdraw queue changed, and no withdrawal matures earlier than before. */
  ghost predicate Postponed(l: Ledger, l': Ledger) {
    && l' == l.(queue := l'.queue)
    && forall b, t :: Measure(l'.queue, OwnedDueBy(b, t)) <= Measure(l.queue, OwnedDueBy(b, t))
  }

  lemma PostponedHeld(l: Ledger, l': Ledger, a: Address, amount: int, end: int)
    requires Postponed(l, l') && Held(l, a, amount, end)
    ensures Held(l', a, amount, end)
  {
  }

  lemma PostponedSelf(l: Ledger)
    ensures Postponed(l, l)
  {
  }

  lemma PostponedTwice(l: Ledger, m: Ledger, l': Ledger)
    requires Postponed(l, m) && Postponed(m, l')
    ensures Postponed(l, l')
  {
  }

  lemma FreeHeld(l: Ledger, a: Address, amount: int, end: int)
    requires Backed(l, a) && amount <= l.providers[a].collateral - l.providers[a].withdrawing
    ensures Held(l, a, amount, end)
  {
    forall t | t < end
      ensures Measure(l.queue, OwnedDueBy(a, t)) + amount <= l.providers[a].collateral
    {
      MeasureMonotone(l.queue, OwnedDueBy(a, t), OwnedBy(a));
    }
  }

  /** What matures by the end is small enough to begin with. */
  lemma EnoughHeld(l: Ledger, a: Address, amount: int, end: int)
    requires a in l.providers && amount <= l.providers[a].collateral - Measure(l.queue, OwnedDueBy(a, end))
    ensures Held(l, a, amount, end)
  {
    forall t | t < end
      ensures Measure(l.queue, OwnedDueBy(a, t)) + amount <= l.providers[a].collateral
    {
      MeasureMonotone(l.queue, OwnedDueBy(a, t), OwnedDueBy(a, end));
    }
  }

  lemma DelayedPostpones(l: Ledger, l': Ledger, a: Address, n: nat, delay: nat, end: int)
    requires l' == l.(queue := l'.queue) && DelayedFor(l.queue, l'.queue, a, n, delay, end)
    ensures Postponed(l, l')
  {
    forall b, t
      ensures Measure(l'.queue, OwnedDueBy(b, t)) <= Measure(l.queue, OwnedDueBy(b, t))
    {
      if b == a {
        DelayedDue(l.queue, l'.queue, a, n, delay, end, t);
      } else {
        SameOthers(l.queue, l'.queue, a, OwnedDueBy(b, t));
      }
    }
  }

  lemma DelayedKeeps(l: Ledger, l': Ledger, a: Address, n: nat, delay: nat, end: int)
    requires Inv(l) && l' == l.(queue := l'.queue) && DelayedFor(l.queue, l'.queue, a, n, delay, end)
    ensures Inv(l')
  {
    DelayedOwes(l.queue, l'.queue, a, n, delay, end);
    forall e | e in l'.queue
      ensures e.amount > 0 && e.owner in l'.providers
    {
      DelayedEntry(l.queue, l'.queue, a, n, delay, end, e);
    }
    forall b | b in l'.providers
      ensures Backed(l', b)
    {
      assert Backed(l, b);
    }
  }

  /** Holding back what is missing makes the amount stay until the end. */
  lemma DelayedHeld(l: Ledger, l': Ledger, a: Address, n: nat, delay: nat, amount: int, end: int)
    requires a in l.providers && l' == l.(queue := l'.queue) && DelayedFor(l.queue, l'.queue, a, n, delay, end)
    requires amount <= l.providers[a].collateral
    requires delay == amount - (l.providers[a].collateral - Measure(l.queue, OwnedDueBy(a, end)))
    ensures Held(l', a, amount, end)
  {
    forall t | t < end
      ensures Measure(l'.queue, OwnedDueBy(a, t)) + amount <= l'.providers[a].collateral
    {
      DelayedHolds(l.queue, l'.queue, a, n, delay, end, t);
    }
  }

  lemma DelayedSecures(l: Ledger, l': Ledger, a: Address, n: nat, delay: nat, amount: int, end: int)
    requires Inv(l) && a in l.providers && amount <= l.providers[a].collateral
    requires l' == l.(queue := l'.queue) && DelayedFor(l.queue, l'.queue, a, n, delay, end)
    requires delay == amount - (l.providers[a].collateral - Measure(l.queue, OwnedDueBy(a, end)))
    ensures Inv(l') && Postponed(l, l') && Held(l', a, amount, end)
  {
    DelayedPostpones(l, l', a, n, delay, end);
    DelayedKeeps(l, l', a, n, delay, end);
    DelayedHeld(l, l', a, n, delay, amount, end);
  }

  // ----- Stake that lasts as long as the collateral -----

  /** The stake of a provider that is still bonded or unbonding after `end`. */
  ghost function StakedPast(l: Ledger, a: Address, end: int): int
    requires a in l.providers
  {
    l.providers[a].bonded + Measure(UnbondingsOf(l, a), Amount()) - Measure(UnbondingsOf(l, a), DueBy(end))
  }

  /**
    Whether an amount can be secured from a provider: it is all free and bonded, or the collateral
    not withdrawn by `end` is backed by stake that is not unbonded by then.
  */
  ghost predicate StakeLasts(l: Ledger, a: Address, amount: nat, end: int) {
    && a in l.providers
    && (|| (amount <= l.providers[a].collateral - l.providers[a].withdrawing && amount <= l.providers[a].bonded)
        || l.providers[a].collateral - Measure(l.queue, OwnedDueBy(a, end)) <= StakedPast(l, a, end))
  }

  ghost predicate StakesLast(l: Ledger, order: seq<Address>, shares: seq<nat>, n: nat, end: int) {
    n <= |shares| <= |order| && forall i :: 0 <= i < n ==> StakeLasts(l, order[i], shares[i], end)
  }

  /** The providers from the `i`-th on have the withdrawals they had. */
  ghost predicate Unmoved(l: Ledger, l': Ledger, order: seq<Address>, i: nat) {
    forall j, t :: i <= j < |order| ==> Measure(l'.queue, OwnedDueBy(order[j], t)) == Measure(l.queue, OwnedDueBy(order[j], t))
  }

  lemma UnmovedLasts(l: Ledger, l': Ledger, order: seq<Address>, i: nat, amount: nat, end: int)
    requires Unmoved(l, l', order, i) && i < |order| && l' == l.(queue := l'.queue)
    ensures StakeLasts(l', order[i], amount, end) <==> StakeLasts(l, order[i], amount, end)
  {
  }

  lemma UnmovedNext(l: Ledger, m: Ledger, l': Ledger, order: seq<Address>, i: nat, i': nat)
    requires Unmoved(l, m, order, i) && i < |order| && i' == i + 1
    requires forall j, k :: 0 <= j < k < |order| ==> order[j] != order[k]
    requires forall b, t :: b != order[i] ==> Measure(l'.queue, OwnedDueBy(b, t)) == Measure(m.queue, OwnedDueBy(b, t))
    ensures Unmoved(l, l', order, i')
  {
  }

  lemma StakesLastNext(l: Ledger, order: seq<Address>, shares: seq<nat>, i: nat, i': nat, end: int)
    requires StakesLast(l, order, shares, i, end) && i < |shares| && i' == i + 1
    ensures StakeLasts(l, order[i], shares[i], end) ==> StakesLast(l, order, shares, i', end)
    ensures !StakeLasts(l, order[i], shares[i], end) ==> !StakesLast(l, order, shares, |shares|, end)
  {
  }

  lemma DelayedOthers(q: seq<Entry>, q': seq<Entry>, a: Address, n: nat, delay: nat, end: int)
    requires DelayedFor(q, q', a, n, delay, end)
    ensures forall b, t :: b != a ==> Measure(q', OwnedDueBy(b, t)) == Measure(q, OwnedDueBy(b, t))
  {
    forall b, t | b != a
      ensures Measure(q', OwnedDueBy(b, t)) == Measure(q, OwnedDueBy(b, t))
    {
      SameOthers(q, q', a, OwnedDueBy(b, t));
    }
  }

  /**
    Stake need not last: deposits count against what is not being withdrawn, so a provider with 100
    bonded that withdraws its 100 and deposits 100 again holds 200 until the withdrawal completes.
  */
  lemma StakeRunsOut(due: int, end: int)
    requires end < due
    ensures var l0 := Ledger(map[], 0, 0, [], map[0 := [100]], map[]);
            var l1 := Deposit(l0, 0, 100).0;
            var l2 := Withdraw(l1, 0, 100, due).0;
            var (l3, status) := Deposit(l2, 0, 100);
            status.Success? && !StakeLasts(l3, 0, 150, end)
  {
    var tokens: seq<nat> := [100];
    assert tokens[1..] == [];
    assert Sum(tokens) == 100;
    var l0 := Ledger(map[], 0, 0, [], map[0 := [100]], map[]);
    var l1 := Deposit(l0, 0, 100).0;
    assert l1.providers[0] == Provider(100, 100, 0);
    var l2 := Withdraw(l1, 0, 100, due).0;
    assert l2.providers[0] == Provider(100, 100, 100) && l2.queue == [Entry(0, 100, due)];
    var l3 := Deposit(l2, 0, 100).0;
    assert l3.providers[0] == Provider(100, 200, 100) && l3.queue == [Entry(0, 100, due)];
    MeasureOne(Entry(0, 100, due), OwnedDueBy(0, end));
  }

  // ----- What the providers hold together -----

  /** Each of the first `n` providers holds its share. */
  ghost predicate AllHeld(l: Ledger, order: seq<Address>, shares: seq<nat>, n: nat, end: int) {
    n <= |shares| <= |order| && forall i :: 0 <= i < n ==> Held(l, order[i], shares[i], end)
  }

  lemma AllHeldNext(m: Ledger, l': Ledger, order: seq<Address>, shares: seq<nat>, i: nat, i': nat, end: int)
    requires i < |shares| && i' == i + 1 && Postponed(m, l') && AllHeld(m, order, shares, i, end)
    requires Held(l', order[i], shares[i], end)
    ensures AllHeld(l', order, shares, i', end)
  {
    forall j | 0 <= j < i'
      ensures Held(l', order[j], shares[j], end)
    {
      if j < i {
        assert Held(m, order[j], shares[j], end);
        PostponedHeld(m, l', order[j], shares[j], end);
      }
    }
  }

  /** What the listed providers have maturing by `t`. */
  ghost function DueFrom(q: seq<Entry>, order: seq<Address>, t: int): nat {
    if order == [] then 0 else Measure(q, OwnedDueBy(order[0], t)) + DueFrom(q, order[1..], t)
  }

  lemma {:induction false} DueFromWithout(q: seq<Entry>, order: seq<Address>, t: int)
    requires q != [] && q[0].owner !in order
    ensures DueFrom(q, order, t) == DueFrom(q[1..], order, t)
  {
    if order != [] {
      DueFromWithout(q, order[1..], t);
    }
  }

  lemma {:induction false} DueFromHead(q: seq<Entry>, order: seq<Address>, t: int)
    requires q != [] && q[0].owner in order && forall i, j :: 0 <= i < j < |order| ==> order[i] != order[j]
    ensures DueFrom(q, order, t) == DueFrom(q[1..], order, t) + DueBy(t)(q[0])
  {
    if order[0] == q[0].owner {
      DueFromWithout(q, order[1..], t);
    } else {
      DueFromHead(q, order[1..], t);
    }
  }

  lemma {:induction false} DueFromAll(q: seq<Entry>, order: seq<Address>, t: int)
    requires forall e :: e in q ==> e.owner in order
    requires forall i, j :: 0 <= i < j < |order| ==> order[i] != order[j]
    ensures DueFrom(q, order, t) == Measure(q, DueBy(t))
  {
    if q == [] {
      NothingDue(order, t);
    } else {
      DueFromAll(q[1..], order, t);
      DueFromHead(q, order, t);
    }
  }

  lemma {:induction false} NothingDue(order: seq<Address>, t: int)
    ensures DueFrom([], order, t) == 0
  {
    if order != [] {
      NothingDue(order[1..], t);
    }
  }

  lemma {:induction false} HeldTogether(l: Ledger, order: seq<Address>, shares: seq<nat>, end: int, t: int)
    requires Solvent(l, order) && |shares| == |order| && AllHeld(l, order, shares, |shares|, end) && t < end
    ensures DueFrom(l.queue, order, t) + Sum(shares) <= Sum(Amounts(l, order))
  {
    if order != [] {
      assert Held(l, order[0], shares[0], end);
      assert AllHeld(l, order[1..], shares[1..], |shares[1..]|, end) by {
        forall i | 0 <= i < |shares[1..]|
          ensures Held(l, order[1..][i], shares[1..][i], end)
        {
          assert Held(l, order[i + 1], shares[i + 1], end);
        }
      }
      HeldTogether(l, order[1..], shares[1..], end, t);
      assert Amounts(l, order)[1..] == Amounts(l, order[1..]);
    }
  }

  /** Until the end of the lock the collateral left after all withdrawals covers the whole secured total. */
  lemma TotalHeld(l: Ledger, order: seq<Address>, shares: seq<nat>, end: int, t: int)
    requires Inv(l) && Enumerates(order, l.providers)
    requires |shares| == |order| && AllHeld(l, order, shares, |shares|, end) && t < end
    ensures Measure(l.queue, DueBy(t)) + Sum(shares) <= l.totalCollateral
  {
    AmountsTotal(l, order);
    HeldTogether(l, order, shares, end, t);
    DueFromAll(l.queue, order, t);
  }
}
