/**
  Providers, their collateral and the withdraw queue, as values: what each keeper
  operation does to them and what every operation keeps.
*/
module Collateral {
  import opened Split
  import opened Totals
  import opened WithdrawQueue
  import opened QueuePayout

  datatype Error = InsufficientStaking | ProviderNotFound | OverWithdraw

  datatype Status = Success | Refused(error: Error)

  datatype Provider = Provider(bonded: int, collateral: int, withdrawing: int)

  /**
    The collateral side of the shield store together with the staking records it depends on:
    the tokens of each delegation, and the unbonding entries from oldest to latest.
  */
  datatype Ledger = Ledger(
    providers: map<Address, Provider>,
    totalCollateral: int,
    totalWithdrawing: int,
    queue: seq<Entry>,
    delegations: map<Address, seq<nat>>,
    unbondings: map<Address, seq<Entry>>)

  function DelegationsOf(l: Ledger, a: Address): seq<nat> {
    if a in l.delegations then l.delegations[a] else []
  }

  function UnbondingsOf(l: Ledger, a: Address): seq<Entry> {
    if a in l.unbondings then l.unbondings[a] else []
  }

  ghost function CollateralOf(a: Address, p: Provider): int {
    p.collateral
  }

  ghost function WithdrawingOf(a: Address, p: Provider): int {
    p.withdrawing
  }

  // ----- What every operation keeps -----

  /** Withdrawing collateral is queued, and the rest is backed by bonded delegations. */
  ghost predicate Backed(l: Ledger, a: Address) {
    && a in l.providers
    && var p := l.providers[a];
       && 0 <= p.withdrawing <= p.collateral
       && p.collateral - p.withdrawing <= p.bonded
       && p.bonded == Sum(DelegationsOf(l, a))
       && p.withdrawing == Measure(l.queue, OwnedBy(a))
  }

  ghost predicate QueueOk(l: Ledger) {
    && Sorted(l.queue)
    && Positive(l.queue)
    && (forall e :: e in l.queue ==> e.owner in l.providers)
  }

  /** The registered provider invariant, up to `owed` units already paid out but still in the total. */
  ghost predicate TotalsOk(l: Ledger, owed: int) {
    && l.totalCollateral == Total(l.providers, CollateralOf) + owed
    && l.totalWithdrawing == Total(l.providers, WithdrawingOf)
    && l.totalWithdrawing == Measure(l.queue, Amount())
  }

  ghost predicate InvOwing(l: Ledger, owed: int) {
    && (forall a :: a in l.providers ==> Backed(l, a))
    && QueueOk(l)
    && TotalsOk(l, owed)
  }

  ghost predicate Inv(l: Ledger) {
    InvOwing(l, 0)
  }

  ghost function HeldBy(l: Ledger, a: Address): int {
    if a in l.providers then l.providers[a].collateral else 0
  }

  ghost function LeavingBy(l: Ledger, a: Address): int {
    if a in l.providers then l.providers[a].withdrawing else 0
  }

  /** An operation on one provider keeps the invariant when its own accounts still balance. */
  lemma OneProvider(l: Ledger, l': Ledger, a: Address, owed: int, owed': int)
    requires InvOwing(l, owed)
    requires Backed(l', a) && QueueOk(l')
    requires l'.providers == l.providers[a := l'.providers[a]]
    requires forall b :: b != a ==> DelegationsOf(l', b) == DelegationsOf(l, b)
    requires forall b :: b != a ==> Measure(l'.queue, OwnedBy(b)) == Measure(l.queue, OwnedBy(b))
    requires l'.totalCollateral - owed' - HeldBy(l', a) == l.totalCollateral - owed - HeldBy(l, a)
    requires l'.totalWithdrawing - LeavingBy(l', a) == l.totalWithdrawing - LeavingBy(l, a)
    requires l'.totalWithdrawing - l.totalWithdrawing == Measure(l'.queue, Amount()) - Measure(l.queue, Amount())
    ensures InvOwing(l', owed')
  {
    TotalUpdate(l.providers, CollateralOf, a, l'.providers[a]);
    TotalUpdate(l.providers, WithdrawingOf, a, l'.providers[a]);
    forall b | b in l'.providers
      ensures Backed(l', b)
    {
      if b != a {
        assert Backed(l, b);
      }
    }
  }

  lemma TotalsNonNegative(l: Ledger)
    requires Inv(l)
    ensures 0 <= l.totalWithdrawing <= l.totalCollateral
  {
    assert forall a :: a in l.providers ==> Backed(l, a);
    TotalMonotone(l.providers, WithdrawingOf, CollateralOf);
    TotalNonNegative(l.providers, WithdrawingOf);
  }

  lemma {:induction false} NoEntries(q: seq<Entry>, a: Address)
    requires forall e :: e in q ==> e.owner != a
    ensures Measure(q, OwnedBy(a)) == 0
  {
    if q != [] {
      NoEntries(q[1..], a);
    }
  }

  // ----- Depositing -----

  /** A new provider starts with no collateral; its bonded amount is the sum of its delegations. */
  function AddProvider(l: Ledger, a: Address): Ledger {
    l.(providers := l.providers[a := Provider(Sum(DelegationsOf(l, a)), 0, 0)])
  }

  function Deposit(l: Ledger, a: Address, amount: nat): (Ledger, Status) {
    var l := if a in l.providers then l else AddProvider(l, a);
    var p := l.providers[a];
    if p.bonded < p.collateral + amount - p.withdrawing then (l, Refused(InsufficientStaking))
    else (l.(providers := l.providers[a := p.(collateral := p.collateral + amount)],
             totalCollateral := l.totalCollateral + amount), Success)
  }

  lemma AddProviderKeeps(l: Ledger, a: Address)
    requires Inv(l) && a !in l.providers
    ensures Inv(AddProvider(l, a))
  {
    NoEntries(l.queue, a);
    OneProvider(l, AddProvider(l, a), a, 0, 0);
  }

  lemma DepositKeeps(l: Ledger, a: Address, amount: nat)
    requires Inv(l)
    ensures var (l', status) := Deposit(l, a, amount);
            && Inv(l')
            && l'.queue == l.queue
            && l'.totalCollateral == l.totalCollateral + (if status.Success? then amount else 0)
            && l'.totalWithdrawing == l.totalWithdrawing
            && (status.Refused? <==> Sum(DelegationsOf(l, a)) < HeldBy(l, a) - LeavingBy(l, a) + amount)
    decreases a !in l.providers
  {
    if a !in l.providers {
      AddProviderKeeps(l, a);
      hide Inv;
      DepositKeeps(AddProvider(l, a), a, amount);
    } else {
      assert Backed(l, a);
      var (l', status) := Deposit(l, a, amount);
      if status.Success? {
        DepositedKeeps(l, l', a, amount);
      }
    }
  }

  lemma DepositedKeeps(l: Ledger, l': Ledger, a: Address, amount: nat)
    requires Inv(l) && a in l.providers && l.providers[a].collateral + amount - l.providers[a].withdrawing <= l.providers[a].bonded
    requires l' == l.(providers := l.providers[a := l.providers[a].(collateral := l.providers[a].collateral + amount)],
                      totalCollateral := l.totalCollateral + amount)
    ensures Inv(l')
  {
    assert Backed(l, a);
    OneProvider(l, l', a, 0, 0);
  }

  // ----- Withdrawing -----

  /** Queues a withdrawal that completes at `due`. */
  function Withdraw(l: Ledger, a: Address, amount: nat, due: int): (Ledger, Status) {
    if amount == 0 then (l, Success)
    else if a !in l.providers then (l, Refused(ProviderNotFound))
    else
      var p := l.providers[a];
      if amount > p.collateral - p.withdrawing then (l, Refused(OverWithdraw))
      else (l.(queue := Insert(l.queue, Entry(a, amount, due)),
               providers := l.providers[a := p.(withdrawing := p.withdrawing + amount)],
               totalWithdrawing := l.totalWithdrawing + amount), Success)
  }

  lemma QueueInsertOk(l: Ledger, e: Entry)
    requires QueueOk(l) && e.amount > 0 && e.owner in l.providers
    ensures QueueOk(l.(queue := Insert(l.queue, e)))
  {
    InsertSorted(l.queue, e);
    InsertAdds(l.queue, e);
    var q := Insert(l.queue, e);
    forall x | x in q
      ensures x.amount > 0 && x.owner in l.providers
    {
      assert x in multiset(q);
      assert x in multiset(l.queue) || x == e;
    }
    forall i | 0 <= i < |q|
      ensures q[i].amount > 0
    {
      assert q[i] in q;
    }
  }

  /** Everything a withdrawal needs of the ledger but that its provider is backed. */
  lemma WithdrawRebooks(l: Ledger, a: Address, amount: nat, due: int)
    requires QueueOk(l) && a in l.providers && 0 < amount <= l.providers[a].collateral - l.providers[a].withdrawing
    ensures var l' := Withdraw(l, a, amount, due).0;
            && QueueOk(l')
            && Measure(l'.queue, Amount()) == Measure(l.queue, Amount()) + amount
            && Measure(l'.queue, OwnedBy(a)) == Measure(l.queue, OwnedBy(a)) + amount
            && (forall b :: b != a ==> Measure(l'.queue, OwnedBy(b)) == Measure(l.queue, OwnedBy(b)))
            && (forall t :: Measure(l'.queue, DueBy(t)) == Measure(l.queue, DueBy(t)) + (if due <= t then amount else 0))
  {
    var e := Entry(a, amount, due);
    QueueInsertOk(l, e);
    InsertMeasure(l.queue, e, Amount());
    InsertMeasure(l.queue, e, OwnedBy(a));
    forall b | b != a
      ensures Measure(Insert(l.queue, e), OwnedBy(b)) == Measure(l.queue, OwnedBy(b))
    {
      InsertMeasure(l.queue, e, OwnedBy(b));
    }
    forall t
      ensures Measure(Insert(l.queue, e), DueBy(t)) == Measure(l.queue, DueBy(t)) + (if due <= t then amount else 0)
    {
      InsertMeasure(l.queue, e, DueBy(t));
    }
  }

  lemma WithdrawKeeps(l: Ledger, a: Address, amount: nat, due: int)
    requires Inv(l)
    ensures var (l', status) := Withdraw(l, a, amount, due);
            && Inv(l')
            && l'.totalCollateral == l.totalCollateral
            && (status.Success? <==> amount <= HeldBy(l, a) - LeavingBy(l, a))
            && (status.Success? ==>
                  && l'.totalWithdrawing == l.totalWithdrawing + amount
                  && forall t :: Measure(l'.queue, DueBy(t)) == Measure(l.queue, DueBy(t)) + (if due <= t then amount else 0))
            && (status.Refused? ==> l' == l)
  {
    var (l', status) := Withdraw(l, a, amount, due);
    if a in l.providers {
      assert Backed(l, a);
    }
    if status.Success? && amount > 0 {
      WithdrawRebooks(l, a, amount, due);
      OneProvider(l, l', a, 0, 0);
    }
  }

  // ----- Delegation changes -----

  /** Books a provider's new bonded amount and withdraws the collateral it no longer backs. */
  function Rebond(l: Ledger, a: Address, staked: int, due: int): (Ledger, Status) {
    if a !in l.providers then (l, Success) else
    var unbacked := l.providers[a].collateral - l.providers[a].withdrawing - staked;
    if unbacked > 0 then Withdraw(Rebooked(l, a, staked), a, unbacked, due) else (Rebooked(l, a, staked), Success)
  }

  function Rebooked(l: Ledger, a: Address, staked: int): Ledger
    requires a in l.providers
  {
    l.(providers := l.providers[a := l.providers[a].(bonded := staked)])
  }

  /** The staking module replaces an account's delegations and calls the hook. */
  function ChangeDelegations(l: Ledger, a: Address, tokens: seq<nat>, due: int): (Ledger, Status) {
    Rebond(l.(delegations := l.delegations[a := tokens]), a, Sum(tokens), due)
  }

  /** The forced withdrawal is never refused, and withdraws exactly what is no longer backed. */
  lemma ChangeDelegationsKeeps(l: Ledger, a: Address, tokens: seq<nat>, due: int)
    requires Inv(l)
    ensures var (l', status) := ChangeDelegations(l, a, tokens, due);
            var forced := Max(HeldBy(l, a) - LeavingBy(l, a) - Sum(tokens), 0);
            && status.Success?
            && Inv(l')
            && l'.totalCollateral == l.totalCollateral
            && l'.totalWithdrawing == l.totalWithdrawing + forced
            && forall t :: Measure(l'.queue, DueBy(t)) == Measure(l.queue, DueBy(t)) + (if due <= t then forced else 0)
  {
    var (l', status) := ChangeDelegations(l, a, tokens, due);
    if a in l.providers {
      assert Backed(l, a);
      RebondedKeeps(l, l', a, tokens, due);
    } else {
      forall b | b in l'.providers
        ensures Backed(l', b)
      {
        assert Backed(l, b);
      }
    }
  }

  /** A provider whose delegations changed, before any withdrawal that forces. */
  function Redelegated(l: Ledger, a: Address, tokens: seq<nat>): Ledger
    requires a in l.providers
  {
    Rebooked(l.(delegations := l.delegations[a := tokens]), a, Sum(tokens))
  }

  lemma RebondedKeeps(l: Ledger, l': Ledger, a: Address, tokens: seq<nat>, due: int)
    requires Inv(l) && a in l.providers && l' == ChangeDelegations(l, a, tokens, due).0
    ensures var forced := Max(HeldBy(l, a) - LeavingBy(l, a) - Sum(tokens), 0);
            && Inv(l')
            && l'.totalCollateral == l.totalCollateral
            && l'.totalWithdrawing == l.totalWithdrawing + forced
            && forall t :: Measure(l'.queue, DueBy(t)) == Measure(l.queue, DueBy(t)) + (if due <= t then forced else 0)
  {
    hide Withdraw, Inv, Sum, Measure;
    var p, m := l.providers[a], Redelegated(l, a, tokens);
    var unbacked := p.collateral - p.withdrawing - Sum(tokens);
    if unbacked > 0 {
      ForcedKeeps(l, m, a, tokens, unbacked, due);
    } else {
      UnforcedKeeps(l, m, a, tokens);
    }
  }

  lemma UnforcedKeeps(l: Ledger, m: Ledger, a: Address, tokens: seq<nat>)
    requires Inv(l) && a in l.providers && m == Redelegated(l, a, tokens)
    requires l.providers[a].collateral - l.providers[a].withdrawing <= Sum(tokens)
    ensures Inv(m)
  {
    assert Backed(l, a);
    OneProvider(l, m, a, 0, 0);
  }

  lemma ForcedKeeps(l: Ledger, m: Ledger, a: Address, tokens: seq<nat>, unbacked: nat, due: int)
    requires Inv(l) && a in l.providers && m == Redelegated(l, a, tokens)
    requires 0 < unbacked == l.providers[a].collateral - l.providers[a].withdrawing - Sum(tokens)
    ensures var l' := Withdraw(m, a, unbacked, due).0;
            && Inv(l')
            && l'.totalCollateral == l.totalCollateral
            && l'.totalWithdrawing == l.totalWithdrawing + unbacked
            && forall t :: Measure(l'.queue, DueBy(t)) == Measure(l.queue, DueBy(t)) + (if due <= t then unbacked else 0)
  {
    assert Backed(l, a);
    ForcedBooks(l, m, a, tokens, unbacked, due);
    WithdrawRebooks(m, a, unbacked, due);
    hide Withdraw, Redelegated, Measure, Sum, Total;
    ForcedOne(l, Withdraw(m, a, unbacked, due).0, a, tokens, unbacked);
  }

  lemma ForcedBooks(l: Ledger, m: Ledger, a: Address, tokens: seq<nat>, unbacked: nat, due: int)
    requires a in l.providers && m == Redelegated(l, a, tokens)
    requires 0 < unbacked <= l.providers[a].collateral - l.providers[a].withdrawing
    ensures var l', p := Withdraw(m, a, unbacked, due).0, l.providers[a];
            && l'.providers == l.providers[a := Provider(Sum(tokens), p.collateral, p.withdrawing + unbacked)]
            && l'.delegations == l.delegations[a := tokens] && m.queue == l.queue && m.providers.Keys == l.providers.Keys
            && m.providers[a].collateral == p.collateral && m.providers[a].withdrawing == p.withdrawing
            && l'.totalCollateral == l.totalCollateral && l'.totalWithdrawing == l.totalWithdrawing + unbacked
  {
    hide Insert;
    var p := l.providers[a];
    UpdateTwice(l.providers, a, p.(bonded := Sum(tokens)), Provider(Sum(tokens), p.collateral, p.withdrawing + unbacked));
  }

  /** A provider that has to withdraw what its delegations no longer back is backed again. */
  lemma ForcedOne(l: Ledger, l': Ledger, a: Address, tokens: seq<nat>, unbacked: nat)
    requires Inv(l) && a in l.providers && QueueOk(l')
    requires unbacked == l.providers[a].collateral - l.providers[a].withdrawing - Sum(tokens)
    requires l'.providers == l.providers[a := Provider(Sum(tokens), l.providers[a].collateral, l.providers[a].withdrawing + unbacked)]
    requires l'.delegations == l.delegations[a := tokens]
    requires l'.totalCollateral == l.totalCollateral && l'.totalWithdrawing == l.totalWithdrawing + unbacked
    requires Measure(l'.queue, Amount()) == Measure(l.queue, Amount()) + unbacked
    requires Measure(l'.queue, OwnedBy(a)) == Measure(l.queue, OwnedBy(a)) + unbacked
    requires forall b :: b != a ==> Measure(l'.queue, OwnedBy(b)) == Measure(l.queue, OwnedBy(b))
    ensures Inv(l')
  {
    assert Backed(l, a);
    hide Measure, Sum;
    OneProvider(l, l', a, 0, 0);
  }

  // ----- Completing withdrawals -----

  /** Books one completed withdrawal that has left the queue. */
  function CompleteOne(l: Ledger, e: Entry): Ledger
    requires e.owner in l.providers
  {
    var p := l.providers[e.owner];
    l.(providers := l.providers[e.owner := p.(collateral := p.collateral - e.amount, withdrawing := p.withdrawing - e.amount)],
       totalCollateral := l.totalCollateral - e.amount,
       totalWithdrawing := l.totalWithdrawing - e.amount)
  }

  /** Dequeues and books all withdrawals due at `now` or before. */
  function Dequeue(l: Ledger, now: int): Ledger
    requires forall e :: e in l.queue ==> e.owner in l.providers
    decreases |l.queue|
  {
    if l.queue == [] || l.queue[0].time > now then l
    else Dequeue(CompleteOne(l.(queue := l.queue[1..]), l.queue[0]), now)
  }

  /** Books completed withdrawals, in order. */
  function BookAll(l: Ledger, es: seq<Entry>): Ledger
    requires forall e :: e in es ==> e.owner in l.providers
    decreases |es|
  {
    if es == [] then l else BookAll(CompleteOne(l, es[0]), es[1..])
  }

  lemma {:induction false} DequeueBooksAll(l: Ledger, now: int, n: nat)
    requires forall e :: e in l.queue ==> e.owner in l.providers
    requires n <= |l.queue| && (forall i :: 0 <= i < n ==> l.queue[i].time <= now)
    requires n < |l.queue| ==> l.queue[n].time > now
    ensures Dequeue(l, now) == BookAll(l.(queue := l.queue[n..]), l.queue[..n])
    decreases n
  {
    if n == 0 {
      assert l.queue[n..] == l.queue;
    } else {
      var m := CompleteOne(l.(queue := l.queue[1..]), l.queue[0]);
      DequeueBooksAll(m, now, n - 1);
      assert m.queue[..n - 1] == l.queue[..n][1..];
      assert m.queue[n - 1..] == l.queue[n..];
      assert CompleteOne(l.(queue := l.queue[n..]), l.queue[0]) == m.(queue := l.queue[n..]);
    }
  }

  lemma CompleteOneKeeps(l: Ledger)
    requires Inv(l) && l.queue != []
    ensures Inv(CompleteOne(l.(queue := l.queue[1..]), l.queue[0]))
  {
    var e := l.queue[0];
    assert Backed(l, e.owner);
    var l' := CompleteOne(l.(queue := l.queue[1..]), e);
    assert QueueOk(l');
    OneProvider(l, l', e.owner, 0, 0);
  }

  /** Exactly what was due leaves collateral, withdrawing and queue; later withdrawals are untouched. */
  lemma {:induction false} DequeueKeeps(l: Ledger, now: int)
    requires Inv(l)
    ensures var l' := Dequeue(l, now);
            var due := Measure(l.queue, DueBy(now));
            && Inv(l')
            && l'.providers.Keys == l.providers.Keys
            && l'.totalCollateral == l.totalCollateral - due
            && l'.totalWithdrawing == l.totalWithdrawing - due
            && (forall e :: e in l'.queue ==> e.time > now)
            && forall t :: t >= now ==> Measure(l'.queue, DueBy(t)) == Measure(l.queue, DueBy(t)) - due
    decreases |l.queue|
  {
    if l.queue == [] || l.queue[0].time > now {
      NoneDue(l.queue, now);
    } else {
      CompleteOneKeeps(l);
      DequeueKeeps(CompleteOne(l.(queue := l.queue[1..]), l.queue[0]), now);
    }
  }
}
