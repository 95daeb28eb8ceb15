/** The collateral side over whole runs, claims included. */
module CollateralRuns {
  import opened Dec
  import opened Split
  import opened Totals
  import opened WithdrawQueue
  import opened Collateral
  import opened Payout
  import opened Reimbursed
  import opened QueueDelay
  import opened Securing

  datatype Event =
    | Deposited(a: Address, amount: nat)
    | Withdrew(a: Address, amount: nat, due: int)
    | Redelegated(a: Address, tokens: seq<nat>, due: int)
    | Unbonded(a: Address, entries: seq<Entry>)
    | Completed(now: int)
    | Delayed(a: Address, count: nat, amount: nat, end: int)
    | PaidOut(order: seq<Address>, totalShield: nat, loss: nat)

  /**
    One step of the collateral side. The staking module changes delegations and unbondings freely;
    a loss is paid out whenever the payout does not halt.
  */
  ghost predicate Next(l: Ledger, l': Ledger, e: Event) {
    match e
    case Deposited(a, amount) => l' == if Deposit(l, a, amount).1.Success? then Deposit(l, a, amount).0 else l
    case Withdrew(a, amount, due) => l' == Withdraw(l, a, amount, due).0
    case Redelegated(a, tokens, due) => l' == ChangeDelegations(l, a, tokens, due).0
    case Unbonded(a, entries) => l' == l.(unbondings := l.unbondings[a := entries])
    case Completed(now) => (forall x :: x in l.queue ==> x.owner in l.providers) && l' == Dequeue(l, now)
    case Delayed(a, count, amount, end) => l' == l.(queue := l'.queue) && DelayedFor(l.queue, l'.queue, a, count, amount, end)
    case PaidOut(order, totalShield, loss) => ReimbursedIn(l, l', order, totalShield, loss)
  }

  lemma UnbondedKeeps(l: Ledger, a: Address, entries: seq<Entry>)
    requires Inv(l)
    ensures Inv(l.(unbondings := l.unbondings[a := entries]))
  {
    var l' := l.(unbondings := l.unbondings[a := entries]);
    forall b | b in l'.providers
      ensures Backed(l', b)
    {
      assert Backed(l, b);
    }
  }

  lemma NextKeeps(l: Ledger, l': Ledger, e: Event)
    requires Inv(l) && Next(l, l', e)
    ensures Inv(l')
  {
    hide Inv, ReimbursedIn;
    match e
    case Deposited(a, amount) => DepositKeeps(l, a, amount);
    case Withdrew(a, amount, due) => WithdrawKeeps(l, a, amount, due);
    case Redelegated(a, tokens, due) => ChangeDelegationsKeeps(l, a, tokens, due);
    case Unbonded(a, entries) => UnbondedKeeps(l, a, entries);
    case Completed(now) => DequeueKeeps(l, now);
    case Delayed(a, count, amount, end) => DelayedKeeps(l, l', a, count, amount, end);
    case PaidOut(order, totalShield, loss) => ReimbursedKeeps(l, l', order, totalShield, loss);
  }

  ghost predicate IsRun(states: seq<Ledger>, events: seq<Event>) {
    && |states| == |events| + 1
    && states[0].providers == map[] && states[0].queue == [] && states[0].totalCollateral == states[0].totalWithdrawing == 0
    && forall i :: 0 <= i < |events| ==> Next(states[i], states[i + 1], events[i])
  }

  lemma {:induction false} RunKeeps(states: seq<Ledger>, events: seq<Event>, i: nat)
    requires IsRun(states, events) && i < |states|
    ensures Inv(states[i])
  {
    if i > 0 {
      hide Inv, Next;
      RunKeeps(states, events, i - 1);
      assert Next(states[i - 1], states[i - 1 + 1], events[i - 1]);
      NextKeeps(states[i - 1], states[i], events[i - 1]);
    }
  }

  /** A provider that has put up five units and withdrawn them again is still there, with no collateral at all. */
  lemma ProviderWithoutCollateral()
    ensures var l0 := Ledger(map[], 0, 0, [], map[0 := [5]], map[]);
            var l1 := Deposit(l0, 0, 5).0;
            var l2 := Withdraw(l1, 0, 5, 1).0;
            l2.queue == [Entry(0, 5, 1)] && 0 in l2.providers && 0 in Dequeue(l2, 1).providers && Dequeue(l2, 1).totalCollateral == 0
  {
    var tokens: seq<nat> := [5];
    assert tokens[1..] == [];
    assert Sum(tokens) == 5;
    var l0 := Ledger(map[], 0, 0, [], map[0 := [5]], map[]);
    var l1 := Deposit(l0, 0, 5).0;
    assert l1.providers[0] == Provider(5, 5, 0);
    var l2 := Withdraw(l1, 0, 5, 1).0;
    assert l2.providers[0] == Provider(5, 5, 5) && l2.queue == [Entry(0, 5, 1)];
    var l3 := CompleteOne(l2.(queue := l2.queue[1..]), l2.queue[0]);
    assert l3.queue == [];
    assert Dequeue(l2, 1) == Dequeue(l3, 1) == l3;
  }

  /**
    In every state of every run the provider invariant holds: what a provider withdraws is within
    its collateral and queued, the rest is backed by its delegations, and the totals are the sums.
  */
  lemma RunBacked(states: seq<Ledger>, events: seq<Event>, i: nat, a: Address)
    requires IsRun(states, events) && i < |states| && a in states[i].providers
    ensures var l, p := states[i], states[i].providers[a];
            && 0 <= p.withdrawing <= p.collateral && p.collateral - p.withdrawing <= p.bonded == Sum(DelegationsOf(l, a))
            && p.withdrawing == Measure(l.queue, OwnedBy(a))
            && l.totalCollateral == Total(l.providers, CollateralOf) && l.totalWithdrawing == Total(l.providers, WithdrawingOf)
  {
    RunKeeps(states, events, i);
    assert Backed(states[i], a);
  }
}
