/**
  One provider's part in a reimbursement: its collateral and queued withdrawals shrink,
  and the same amount leaves its delegations and unbondings.
*/
module Payout {
  import opened Split
  import opened WithdrawQueue
  import opened QueuePayout
  import opened Collateral

  /** The part of a payout that `available` can pay once it has covered the purchased shield. */
  function FromAvailable(available: int, purchased: nat, payout: nat): (r: nat)
    ensures r <= payout
  {
    if available >= purchased + payout then payout
    else if available >= purchased then available - purchased
    else 0
  }

  /** The purchased shield that `available` does not cover. */
  function Uncovered(available: int, purchased: nat): nat {
    Max(purchased - available, 0)
  }

  /** Covers the purchased shield first, then as much of the payout as possible. */
  method SplitPayout(available: nat, purchased: nat, payout: nat) returns (uncovered: nat, paid: nat)
    ensures uncovered == Uncovered(available, purchased)
    ensures paid == FromAvailable(available, purchased, payout)
    ensures paid == Min(payout, Max(available - purchased, 0))
  {
    uncovered, paid := 0, 0;
    if available >= purchased + payout {
      paid := payout;
    } else if available >= purchased {
      paid := available - purchased;
    } else {
      uncovered := purchased - available;
    }
  }

  function Free(p: Provider): int {
    p.collateral - p.withdrawing
  }

  /** The queue cannot supply its part exactly when the collateral is too small for both. */
  lemma HaltsOnShortCollateral(collateral: int, withdrawing: nat, purchased: nat, payout: nat)
    requires withdrawing <= collateral
    ensures var free := collateral - withdrawing;
            var take := payout - FromAvailable(free, purchased, payout);
            Reachable(withdrawing, Uncovered(free, purchased), take) < take <==> 0 < payout && collateral < purchased + payout
  {
  }

  /** Pays out of free collateral first and out of the queue for the rest; `left` is what the queue cannot supply. */
  method TakePayout(p: Provider, queue: seq<Entry>, a: Address, purchased: nat, payout: nat)
    returns (q: seq<Entry>, fromWithdraw: nat, left: nat)
    requires Sorted(queue) && Positive(queue)
    requires 0 <= p.withdrawing <= p.collateral && p.withdrawing == Measure(queue, OwnedBy(a))
    ensures fromWithdraw == FromQueue(p, purchased, payout)
    ensures left > 0 <==> 0 < payout && p.collateral < purchased + payout
    ensures TrimmedFor(queue, q, a, LeftInQueue(p, purchased), FromQueue(p, purchased, payout))
  {
    var uncovered, fromCollateral := SplitPayout(Free(p), purchased, payout);
    fromWithdraw := payout - fromCollateral;
    HaltsOnShortCollateral(p.collateral, p.withdrawing, purchased, payout);
    q, left := TakeFromWithdraws(queue, a, uncovered, fromWithdraw);
  }

  /** The ledger after a payout of which `take` units came out of the queue. */
  function BookPayout(l: Ledger, a: Address, payout: nat, take: nat, queue: seq<Entry>): Ledger
    requires a in l.providers
  {
    var p := l.providers[a];
    l.(queue := queue,
       providers := l.providers[a := p.(collateral := p.collateral - payout, withdrawing := p.withdrawing - take)],
       totalWithdrawing := l.totalWithdrawing - take)
  }

  /** The ledger after `take` tokens left the provider's delegations. */
  function BookTokens(l: Ledger, a: Address, take: nat, delegations: map<Address, seq<nat>>, unbondings: map<Address, seq<Entry>>): Ledger
    requires a in l.providers
  {
    var p := l.providers[a];
    l.(delegations := delegations, unbondings := unbondings,
       providers := l.providers[a := p.(bonded := p.bonded - take)])
  }

  /** The part of a payout that has to come out of the queue. */
  function FromQueue(p: Provider, purchased: nat, payout: nat): nat {
    payout - FromAvailable(Free(p), purchased, payout)
  }

  /** The part of the purchased shield that queued withdrawals have to cover. */
  function LeftInQueue(p: Provider, purchased: nat): nat {
    Uncovered(Free(p), purchased)
  }

  function FromDelegations(p: Provider, purchased: nat, payout: nat): nat {
    FromAvailable(p.bonded, purchased, payout)
  }

  function FromUnbondings(p: Provider, purchased: nat, payout: nat): nat {
    payout - FromAvailable(p.bonded, purchased, payout)
  }

  function LeftInUnbondings(p: Provider, purchased: nat): nat {
    Uncovered(p.bonded, purchased)
  }

  /** The payout is booked against free collateral first, then against queued withdrawals. */
  ghost predicate CollateralPaid(l: Ledger, l': Ledger, a: Address, purchased: nat, payout: nat) {
    && a in l.providers
    && TrimmedFor(l.queue, l'.queue, a, LeftInQueue(l.providers[a], purchased), FromQueue(l.providers[a], purchased, payout))
    && l' == BookPayout(l, a, payout, FromQueue(l.providers[a], purchased, payout), l'.queue)
  }

  /** The tokens come out of delegations first, then out of unbondings, latest first. */
  ghost predicate TokensPaid(l: Ledger, l': Ledger, a: Address, purchased: nat, payout: nat) {
    && a in l.providers
    && Sum(DelegationsOf(l', a)) == Sum(DelegationsOf(l, a)) - FromDelegations(l.providers[a], purchased, payout)
    && (forall b :: b != a ==> DelegationsOf(l', b) == DelegationsOf(l, b) && UnbondingsOf(l', b) == UnbondingsOf(l, b))
    && UnbondingsOf(l', a) == Trim(UnbondingsOf(l, a), LeftInUnbondings(l.providers[a], purchased),
                                   FromUnbondings(l.providers[a], purchased, payout))
    && l' == BookTokens(l, a, FromDelegations(l.providers[a], purchased, payout), l'.delegations, l'.unbondings)
  }

  /** The first `i` delegations of `a` have paid their shares, `paid` units in all. */
  ghost predicate Undelegated(l: Ledger, l': Ledger, a: Address, shares: seq<nat>, i: nat, paid: nat) {
    && a in l.providers && a in l.delegations
    && Within(shares, l.delegations[a])
    && Within(Upto(shares, i), l.delegations[a])
    && l'.delegations == l.delegations[a := Less(l.delegations[a], Upto(shares, i))]
    && l'.unbondings == l.unbondings
    && paid == Sum(Upto(shares, i))
    && l' == BookTokens(l, a, paid, l'.delegations, l'.unbondings)
  }

  lemma UndelegatedStep(l: Ledger, m: Ledger, l': Ledger, a: Address, shares: seq<nat>, i: nat, paid: nat, paid': nat)
    requires Undelegated(l, m, a, shares, i, paid) && i < |shares|
    requires l'.unbondings == m.unbondings
    requires l'.delegations == m.delegations[a := m.delegations[a][i := m.delegations[a][i] - shares[i]]]
    requires l' == BookTokens(m, a, shares[i], l'.delegations, l'.unbondings)
    requires paid' == paid + shares[i]
    ensures Undelegated(l, l', a, shares, i + 1, paid')
  {
    UptoStep(l.delegations[a], shares, i);
    assert m.delegations[a] == Less(l.delegations[a], Upto(shares, i));
    assert l'.delegations == l.delegations[a := Less(l.delegations[a], Upto(shares, i + 1))];
    BookTokensTwice(l, m, l', a, paid, shares[i], paid');
  }

  lemma BookTokensTwice(l: Ledger, m: Ledger, l': Ledger, a: Address, x: nat, y: nat, z: nat)
    requires a in l.providers && z == x + y
    requires m == BookTokens(l, a, x, m.delegations, m.unbondings)
    requires l' == BookTokens(m, a, y, l'.delegations, l'.unbondings)
    ensures l' == BookTokens(l, a, z, l'.delegations, l'.unbondings)
  {
    assert l'.providers[a] == l.providers[a].(bonded := l.providers[a].bonded - z);
    assert l'.providers == l.providers[a := l'.providers[a]];
  }

  lemma UndelegatedNone(l: Ledger, a: Address, shares: seq<nat>)
    requires a in l.providers && a in l.delegations && Within(shares, l.delegations[a])
    ensures Undelegated(l, l, a, shares, 0, 0)
  {
    UptoNone(l.delegations[a], shares);
  }

  lemma UndelegatedDone(l: Ledger, l': Ledger, a: Address, shares: seq<nat>, i: nat, paid: nat)
    requires Undelegated(l, l', a, shares, i, paid)
    requires forall j :: i <= j < |shares| ==> shares[j] == 0
    ensures Undelegated(l, l', a, shares, |shares|, paid)
  {
    UptoAll(shares, i);
  }

  /** Halfway through, the tokens left still back the collateral. */
  lemma UndelegatedBacked(l: Ledger, m: Ledger, a: Address, shares: seq<nat>, i: nat, paid: nat)
    requires Undelegated(l, m, a, shares, i, paid) && l.providers[a].bonded == Sum(l.delegations[a])
    ensures a in m.providers && m.providers[a] == l.providers[a].(bonded := l.providers[a].bonded - paid)
    ensures m.providers[a].bonded == Sum(m.delegations[a])
    ensures |m.delegations[a]| == |shares|
    ensures i < |shares| ==> m.delegations[a][i] == l.delegations[a][i]
  {
    SumLess(l.delegations[a], Upto(shares, i));
  }

  /** Takes a payout out of unbonding entries, from latest to oldest. */
  method PayFromUnbondings(entries: seq<Entry>, skip: nat, take: nat) returns (rest: seq<Entry>, left: nat)
    requires Positive(entries)
    ensures rest == Trim(entries, skip, take)
    ensures left == take - Reachable(Measure(entries, Amount()), skip, take)
  {
    var uncovered: nat, i: nat := skip, |entries|;
    rest, left := [], take;
    assert entries[..i] == entries;
    while i > 0 && left > 0
      invariant Progress(entries, skip, take, i, uncovered, left, rest)
    {
      i := i - 1;
      var e := entries[i];
      ghost var uncovered0, left0, rest0 := uncovered, left, rest;
      var available := Max(e.amount - uncovered, 0);
      uncovered := Max(uncovered - e.amount, 0);
      if available == 0 {
        rest := [e] + rest;
      } else {
        var paid := Min(left, available);
        left := left - paid;
        rest := Rest(e, paid) + rest;
      }
      ProgressStep(entries, skip, take, i, e, uncovered0, left0, rest0, uncovered, left, rest);
    }
    ProgressDone(entries, skip, take, i, uncovered, left, rest);
    rest := entries[..i] + rest;
  }

  /** The unbondings' part of a payout; `left` is what they cannot supply. */
  method TakeUnbonded(p: Provider, entries: seq<Entry>, purchased: nat, payout: nat) returns (rest: seq<Entry>, left: nat)
    requires Positive(entries) && 0 <= p.bonded
    ensures rest == Trim(entries, LeftInUnbondings(p, purchased), FromUnbondings(p, purchased, payout))
    ensures left > 0 <==> 0 < payout && p.bonded + Measure(entries, Amount()) < purchased + payout
  {
    var uncovered, fromDelegation := SplitPayout(p.bonded, purchased, payout);
    HaltsOnShortCollateral(p.bonded + Measure(entries, Amount()), Measure(entries, Amount()), purchased, payout);
    rest, left := PayFromUnbondings(entries, uncovered, payout - fromDelegation);
  }

  /** The tokens are paid once the delegations and the unbondings have given their parts. */
  lemma TokensPaidBy(l: Ledger, m: Ledger, l': Ledger, a: Address, purchased: nat, payout: nat, shares: seq<nat>)
    requires a in l.providers
    requires var paid := FromDelegations(l.providers[a], purchased, payout);
             if paid > 0 then Undelegated(l, m, a, shares, |shares|, paid) else m == l
    requires l' == m.(unbondings := l'.unbondings)
    requires l'.unbondings == m.unbondings[a := UnbondingsOf(l', a)]
    requires UnbondingsOf(l', a) == Trim(UnbondingsOf(l, a), LeftInUnbondings(l.providers[a], purchased),
                                         FromUnbondings(l.providers[a], purchased, payout))
    ensures TokensPaid(l, l', a, purchased, payout)
  {
    var paid := FromDelegations(l.providers[a], purchased, payout);
    if paid > 0 {
      SumLess(l.delegations[a], Upto(shares, |shares|));
    } else {
      assert l.providers[a := l.providers[a].(bonded := l.providers[a].bonded - paid)] == l.providers;
    }
  }

  /** What is not covered and not paid by free collateral fits the queued withdrawals. */
  lemma FitsWithdrawing(collateral: int, withdrawing: int, purchased: nat, payout: nat)
    requires 0 <= withdrawing <= collateral && purchased + payout <= collateral
    ensures var free := collateral - withdrawing;
            Uncovered(free, purchased) + (payout - FromAvailable(free, purchased, payout)) <= withdrawing
  {
  }

  lemma BookedKeeps(l: Ledger, l': Ledger, a: Address, payout: nat, skip: nat, take: nat, owed: int)
    requires InvOwing(l, owed) && a in l.providers
    requires TrimmedFor(l.queue, l'.queue, a, skip, take)
    requires skip + take <= l.providers[a].withdrawing
    requires 0 <= payout - take <= Free(l.providers[a])
    requires l' == BookPayout(l, a, payout, take, l'.queue)
    ensures InvOwing(l', owed + payout)
  {
    assert Backed(l, a);
    TrimmedMeasures(l.queue, l'.queue, a, skip, take);
    OneProvider(l, l', a, owed, owed + payout);
  }

  /** Taking nothing out of the queue leaves the queue's sums alone, whatever must stay in it. */
  lemma NothingTaken(l: Ledger, l': Ledger, a: Address, skip: nat, owed: int)
    requires InvOwing(l, owed) && a in l.providers
    requires TrimmedFor(l.queue, l'.queue, a, skip, 0) && l' == BookPayout(l, a, 0, 0, l'.queue)
    ensures InvOwing(l', owed)
  {
    assert Backed(l, a);
    OwnPositive(l.queue, a);
    TrimNothing(Own(l.queue, a), skip);
    TrimNothing(Own(l.queue, a), 0);
    BookedKeeps(l, l', a, 0, 0, 0, owed);
  }

  lemma CollateralPaidKeeps(l: Ledger, l': Ledger, a: Address, purchased: nat, payout: nat, owed: int)
    requires InvOwing(l, owed) && CollateralPaid(l, l', a, purchased, payout)
    requires payout > 0 ==> purchased + payout <= l.providers[a].collateral
    ensures InvOwing(l', owed + payout)
  {
    assert Backed(l, a);
    var p := l.providers[a];
    var skip, take := LeftInQueue(p, purchased), FromQueue(p, purchased, payout);
    if payout == 0 {
      NothingTaken(l, l', a, skip, owed);
      return;
    }
    FitsWithdrawing(p.collateral, p.withdrawing, purchased, payout);
    assert skip + take <= p.withdrawing;
    assert payout - take <= Free(p);
    assert l' == BookPayout(l, a, payout, take, l'.queue);
    BookedKeeps(l, l', a, payout, skip, take, owed);
  }

  /** What the provider still has free is backed by what it still has bonded, whatever the split. */
  lemma StillBacked(free: int, bonded: int, purchased: nat, payout: nat)
    requires 0 <= free <= bonded
    ensures free - FromAvailable(free, purchased, payout) <= bonded - FromAvailable(bonded, purchased, payout)
  {
  }

  /** Paying out keeps every provider backed, so it forces no withdrawal. */
  lemma PayoutKeeps(l: Ledger, m: Ledger, l': Ledger, a: Address, purchased: nat, payout: nat, owed: int)
    requires InvOwing(l, owed)
    requires CollateralPaid(l, m, a, purchased, payout) && TokensPaid(m, l', a, purchased, payout)
    requires payout > 0 ==> purchased + payout <= l.providers[a].collateral
    ensures InvOwing(l', owed + payout)
  {
    assert Backed(l, a);
    CollateralPaidKeeps(l, m, a, purchased, payout, owed);
    assert Backed(m, a);
    StillBacked(Free(l.providers[a]), l.providers[a].bonded, purchased, payout);
    assert QueueOk(l');
    OneProvider(m, l', a, owed + payout, owed + payout);
  }

  /** The provider's stake, bonded and unbonding, covers its collateral. */
  ghost predicate StakeCovers(l: Ledger, a: Address) {
    a in l.providers ==>
      l.providers[a].collateral <= l.providers[a].bonded + Measure(UnbondingsOf(l, a), Amount())
  }

  /** The tokens that delegations cannot pay can all be taken from the unbondings. */
  lemma FitsUnbonding(p: Provider, unbonding: nat, purchased: nat, payout: nat)
    requires 0 <= p.bonded && purchased + payout <= p.bonded + unbonding
    ensures var rest := FromUnbondings(p, purchased, payout);
            Reachable(unbonding, LeftInUnbondings(p, purchased), rest) == rest
  {
  }

  lemma OwnStakeStillCovers(m: Ledger, l': Ledger, a: Address, purchased: nat, payout: nat)
    requires TokensPaid(m, l', a, purchased, payout) && 0 <= m.providers[a].bonded
    requires var stake := m.providers[a].bonded + Measure(UnbondingsOf(m, a), Amount());
             purchased + payout <= stake && m.providers[a].collateral + payout <= stake
    ensures StakeCovers(l', a)
  {
    var p, unbondings := m.providers[a], UnbondingsOf(m, a);
    var skip, rest := LeftInUnbondings(p, purchased), FromUnbondings(p, purchased, payout);
    FitsUnbonding(p, Measure(unbondings, Amount()), purchased, payout);
    TrimTotal(unbondings, skip, rest);
    assert Measure(Trim(unbondings, skip, rest), Amount()) == Measure(unbondings, Amount()) - rest;
  }

  lemma StakeStillCovers(l: Ledger, m: Ledger, l': Ledger, a: Address, purchased: nat, payout: nat)
    requires CollateralPaid(l, m, a, purchased, payout) && TokensPaid(m, l', a, purchased, payout)
    requires payout > 0 ==> purchased + payout <= l.providers[a].collateral
    requires 0 <= l.providers[a].bonded
    requires forall b :: StakeCovers(l, b)
    ensures forall b :: StakeCovers(l', b)
  {
    assert StakeCovers(l, a);
    if payout == 0 {
      IdleStakeStillCovers(m, l', a, purchased);
    } else {
      OwnStakeStillCovers(m, l', a, purchased, payout);
    }
    forall b
      ensures StakeCovers(l', b)
    {
      hide StakeCovers, Trim;
      if b != a {
        OtherStakeStillCovers(l, m, l', a, b, purchased, payout);
      }
    }
  }

  lemma OtherStakeStillCovers(l: Ledger, m: Ledger, l': Ledger, a: Address, b: Address, purchased: nat, payout: nat)
    requires CollateralPaid(l, m, a, purchased, payout) && TokensPaid(m, l', a, purchased, payout) && a != b && StakeCovers(l, b)
    ensures StakeCovers(l', b)
  {
    hide Trim;
    assert UnbondingsOf(l', b) == UnbondingsOf(l, b);
  }

  /** Paying nothing leaves the stake as it is. */
  lemma IdleStakeStillCovers(m: Ledger, l': Ledger, a: Address, purchased: nat)
    requires TokensPaid(m, l', a, purchased, 0) && StakeCovers(m, a)
    ensures StakeCovers(l', a)
  {
    TrimTotal(UnbondingsOf(m, a), LeftInUnbondings(m.providers[a], purchased), 0);
  }
}
