/** The keeper of providers, collateral and withdrawals: the store is updated in place. */
module CollateralKeeper {
  import opened Dec
  import opened Split
  import opened Totals
  import opened WithdrawQueue
  import opened QueuePayout
  import opened Collateral
  import opened Payout
  import opened Reimbursement
  import opened Reimbursed
  import opened QueueDelay
  import opened Securing

  /** `Halted` stands for a panic. */
  datatype Result = Done | NotFound | Halted

  class Keeper {
    var providers: map<Address, Provider>
    var totalCollateral: int
    var totalWithdrawing: int
    var queue: seq<Entry>
    var delegations: map<Address, seq<nat>>
    var unbondings: map<Address, seq<Entry>>

    ghost function View(): Ledger
      reads this
    {
      Ledger(providers, totalCollateral, totalWithdrawing, queue, delegations, unbondings)
    }

    constructor (delegations: map<Address, seq<nat>>, unbondings: map<Address, seq<Entry>>)
      ensures View() == Ledger(map[], 0, 0, [], delegations, unbondings) && Inv(View())
    {
      providers, totalCollateral, totalWithdrawing, queue := map[], 0, 0, [];
      this.delegations, this.unbondings := delegations, unbondings;
    }

    method SumDelegations(a: Address) returns (total: nat)
      ensures total == Sum(DelegationsOf(View(), a))
    {
      var ds := if a in delegations then delegations[a] else [];
      total := 0;
      for i := 0 to |ds|
        invariant total == Sum(ds[..i])
      {
        assert ds[..i + 1] == ds[..i] + [ds[i]];
        SumAppend(ds[..i], [ds[i]]);
        total := total + ds[i];
      }
      assert ds[..|ds|] == ds;
    }

    method DepositCollateral(a: Address, amount: nat) returns (status: Status)
      modifies this
      ensures View() == Deposit(old(View()), a, amount).0
      ensures status == Deposit(old(View()), a, amount).1
    {
      if a !in providers {
        var staked := SumDelegations(a);
        providers := providers[a := Provider(staked, 0, 0)];
      }
      var p := providers[a];
      if p.bonded < p.collateral + amount - p.withdrawing {
        return Refused(InsufficientStaking);
      }
      providers := providers[a := p.(collateral := p.collateral + amount)];
      totalCollateral := totalCollateral + amount;
      return Success;
    }

    method WithdrawCollateral(a: Address, amount: nat, due: int) returns (status: Status)
      modifies this
      ensures View() == Withdraw(old(View()), a, amount, due).0
      ensures status == Withdraw(old(View()), a, amount, due).1
    {
      if amount == 0 {
        return Success;
      }
      if a !in providers {
        return Refused(ProviderNotFound);
      }
      var p := providers[a];
      if amount > p.collateral - p.withdrawing {
        return Refused(OverWithdraw);
      }
      queue := Insert(queue, Entry(a, amount, due));
      providers := providers[a := p.(withdrawing := p.withdrawing + amount)];
      totalWithdrawing := totalWithdrawing + amount;
      return Success;
    }

    /** The staking hook after a delegation of `a` changed. */
    method UpdateDelegationAmount(a: Address, due: int)
      requires a in providers ==> 0 <= Free(providers[a])
      modifies this
      ensures View() == Rebond(old(View()), a, Sum(DelegationsOf(old(View()), a)), due).0
    {
      if a !in providers {
        return;
      }
      var staked := SumDelegations(a);
      UpdateProviderForDelegationChanges(a, staked, due);
    }

    /** The staking hook before the `i`-th delegation of `a` is removed. */
    method RemoveDelegation(a: Address, i: nat, due: int)
      requires i < |DelegationsOf(View(), a)|
      requires a in providers ==> 0 <= Free(providers[a]) && DelegationsOf(View(), a)[i] <= providers[a].bonded
      modifies this
      ensures a in old(providers) ==>
                View() == Rebond(old(View()), a, old(providers[a].bonded - delegations[a][i]), due).0
      ensures a !in old(providers) ==> View() == old(View())
    {
      if a !in providers {
        return;
      }
      UpdateProviderForDelegationChanges(a, providers[a].bonded - delegations[a][i], due);
    }

    /** Books the new bonded amount; the withdrawal it may force is never refused. */
    method UpdateProviderForDelegationChanges(a: Address, staked: nat, due: int)
      requires a in providers ==> 0 <= Free(providers[a])
      modifies this
      ensures View() == Rebond(old(View()), a, staked, due).0
      ensures Rebond(old(View()), a, staked, due).1.Success?
    {
      if a !in providers {
        return;
      }
      var p := providers[a].(bonded := staked);
      providers := providers[a := p];
      var unbacked := p.collateral - p.withdrawing - staked;
      if unbacked > 0 {
        var status := WithdrawCollateral(a, unbacked, due);
        if status.Refused? {
          assert false;
        }
      }
    }

    /** Takes due withdrawals off the queue, then books them one by one. */
    method DequeueCompletedWithdrawQueue(now: int)
      requires QueueOk(View())
      modifies this
      ensures View() == Dequeue(old(View()), now)
    {
      var n := 0;
      while n < |queue| && queue[n].time <= now
        invariant 0 <= n <= |queue|
        invariant forall i :: 0 <= i < n ==> queue[i].time <= now
      {
        n := n + 1;
      }
      DequeueBooksAll(View(), now, n);
      var completed := queue[..n];
      queue := queue[n..];
      BookCompleted(completed);
    }

    /** Books completed withdrawals; every owner is a known provider. */
    method BookCompleted(completed: seq<Entry>)
      requires forall e :: e in completed ==> e.owner in providers
      modifies this
      ensures View() == BookAll(old(View()), completed)
    {
      ghost var after := BookAll(View(), completed);
      for i := 0 to |completed|
        invariant forall e :: e in completed ==> e.owner in providers
        invariant BookAll(View(), completed[i..]) == after
      {
        var e := completed[i];
        assert completed[i..][0] == e;
        assert completed[i..][1..] == completed[i + 1..];
        if e.owner !in providers {
          assert false;
        }
        var p := providers[e.owner];
        ghost var next := CompleteOne(View(), e);
        providers := providers[e.owner := p.(collateral := p.collateral - e.amount, withdrawing := p.withdrawing - e.amount)];
        totalCollateral := totalCollateral - e.amount;
        totalWithdrawing := totalWithdrawing - e.amount;
        assert View() == next;
      }
    }

    /**
      Books a provider's payout against its collateral and queued withdrawals. Of the two ways
      to fail, the panic is reached exactly when a payout is asked of collateral too small for it.
    */
    method UpdateProviderCollateralForPayout(a: Address, purchased: nat, payout: nat) returns (r: Result)
      requires QueueOk(View())
      requires a in providers ==> Backed(View(), a)
      modifies this
      ensures r.NotFound? <==> a !in old(providers)
      ensures r.Halted? <==> a in old(providers) && 0 < payout && old(providers[a].collateral) < purchased + payout
      ensures r.Done? ==> CollateralPaid(old(View()), View(), a, purchased, payout)
    {
      if a !in providers {
        return NotFound;
      }
      var p := providers[a];
      var trimmed, fromWithdraw, left := TakePayout(p, queue, a, purchased, payout);
      if left != 0 {
        return Halted;
      }
      StorePayout(a, payout, fromWithdraw, trimmed);
      return Done;
    }

    method StorePayout(a: Address, payout: nat, fromWithdraw: nat, trimmed: seq<Entry>)
      requires a in providers
      modifies this
      ensures queue == trimmed
      ensures View() == BookPayout(old(View()), a, payout, fromWithdraw, queue)
    {
      var p := providers[a];
      queue := trimmed;
      totalWithdrawing := totalWithdrawing - fromWithdraw;
      providers := providers[a := p.(collateral := p.collateral - payout, withdrawing := p.withdrawing - fromWithdraw)];
    }

    /** Takes tokens out of one delegation; the staking module calls the hook that fits. */
    method UndelegateShares(a: Address, i: nat, amount: nat, due: int)
      requires a in providers && a in delegations && i < |delegations[a]| && amount <= delegations[a][i]
      requires providers[a].bonded == Sum(delegations[a])
      requires 0 <= Free(providers[a]) <= providers[a].bonded - amount
      modifies this
      ensures unbondings == old(unbondings)
      ensures delegations == old(delegations)[a := old(delegations[a])[i := old(delegations[a][i]) - amount]]
      ensures View() == BookTokens(old(View()), a, amount, delegations, unbondings)
    {
      var tokens := delegations[a];
      var left := tokens[i] - amount;
      SumUpdate(tokens, i, left);
      if left == 0 {
        SumMember(tokens, i);
        RemoveDelegation(a, i, due);
        delegations := delegations[a := tokens[i := left]];
      } else {
        delegations := delegations[a := tokens[i := left]];
        UpdateDelegationAmount(a, due);
      }
    }

    /** Undelegates the `i`-th share on top of those before it. */
    method UndelegateShare(a: Address, i: nat, amount: nat, due: int,
                           ghost before: Ledger, ghost shares: seq<nat>, ghost paid: nat, ghost paid': nat)
      requires Undelegated(before, View(), a, shares, i, paid) && i < |shares| && amount == shares[i]
      requires before.providers[a].bonded == Sum(before.delegations[a])
      requires paid' == paid + amount && 0 <= Free(before.providers[a]) <= before.providers[a].bonded - paid'
      modifies this
      ensures Undelegated(before, View(), a, shares, i + 1, paid')
    {
      ghost var mid := View();
      UndelegatedBacked(before, mid, a, shares, i, paid);
      UndelegateShares(a, i, amount, due);
      UndelegatedStep(before, mid, View(), a, shares, i, paid, paid');
    }

    /** Undelegates each delegation's share of the payout; none is asked for more than it holds. */
    method PayFromDelegation(a: Address, payout: nat, due: int, ghost shares: seq<nat>)
      requires Backed(View(), a) && a in delegations && 0 < payout
      requires Free(providers[a]) <= providers[a].bonded - payout
      requires LastFits(delegations[a], Ratio(payout, providers[a].bonded), payout)
      requires shares == LastTakesRest(delegations[a], Ratio(payout, providers[a].bonded), payout)
      modifies this
      ensures Undelegated(old(View()), View(), a, shares, |shares|, payout)
    {
      hide LastFits, LastTakesRest, Ratio;
      ghost var before := View();
      var tokens, ratio := delegations[a], Ratio(payout, providers[a].bonded);
      RatioAtMostOne(payout, providers[a].bonded);
      LastTakesRestIff(tokens, ratio, payout);
      UndelegatedNone(before, a, shares);
      var remaining: nat, i: nat := payout, 0;
      ghost var paid: nat := 0;
      while i < |tokens| && remaining > 0
        invariant i <= |tokens| && paid + remaining == payout
        invariant shares[i..] == LastTakesRest(tokens[i..], ratio, remaining)
        invariant Undelegated(before, View(), a, shares, i, paid)
      {
        var amount, left := NextShare(tokens, ratio, i, remaining, shares);
        ghost var sofar := paid + amount;
        UndelegateShare(a, i, amount, due, before, shares, paid, sofar);
        remaining, paid, i := left, sofar, i + 1;
      }
      LastTakesRestDone(tokens, ratio, shares, i, remaining);
      UndelegatedDone(before, View(), a, shares, i, paid);
      UptoAll(shares, |shares|);
    }

    /**
      Undelegates a provider's payout. The panic is reached exactly when its delegations and
      unbondings together are too small for the payout and the purchased shield.
    */
    method MakePayoutByProviderDelegations(a: Address, purchased: nat, payout: nat, due: int) returns (r: Result)
      requires a in providers ==>
                 && Backed(View(), a) && Splittable(DelegationsOf(View(), a))
                 && Free(providers[a]) <= providers[a].bonded - FromDelegations(providers[a], purchased, payout)
                 && Positive(UnbondingsOf(View(), a))
      modifies this
      ensures r.NotFound? <==> a !in old(providers)
      ensures r.Halted? <==>
                && a in old(providers) && 0 < payout
                && old(providers[a].bonded) + Measure(UnbondingsOf(old(View()), a), Amount()) < purchased + payout
      ensures r.Done? ==> TokensPaid(old(View()), View(), a, purchased, payout)
    {
      if a !in providers {
        return NotFound;
      }
      ghost var before := View();
      var p := providers[a];
      var entries := if a in unbondings then unbondings[a] else [];
      var _, fromDelegation := SplitPayout(p.bonded, purchased, payout);
      ghost var shares: seq<nat> := [];
      if fromDelegation > 0 {
        assert DelegationsOf(before, a) != [];
        shares := LastTakesRest(delegations[a], Ratio(fromDelegation, p.bonded), fromDelegation);
        PayFromDelegation(a, fromDelegation, due, shares);
      }
      ghost var mid := View();
      var rest, left := TakeUnbonded(p, entries, purchased, payout);
      if left != 0 {
        return Halted;
      }
      unbondings := unbondings[a := rest];
      TokensPaidBy(before, mid, View(), a, purchased, payout, shares);
      return Done;
    }

    /**
      Makes the `k`-th provider meet the demand on it. It halts exactly when it is to pay and its
      collateral, or its delegations and unbondings, are not enough.
    */
    method MeetDemand(k: nat, a: Address, d: Demand, due: int, ghost before: Ledger, ghost order: seq<Address>, ghost ds: seq<Demand>,
                      ghost paid: nat, ghost k': nat, ghost paid': nat) returns (ok: bool)
      requires Asked(before, order, ds) && k < |ds| && a == order[k] && d == ds[k] && StakeOk(before, a)
      requires k' == k + 1 && paid' == paid + d.payout
      requires Between(before, View(), order, k, paid) && Met(before, View(), order, ds, k)
      modifies this
      ensures ok <==> Meets(before, a, d)
      ensures ok ==> Between(before, View(), order, k', paid') && Met(before, View(), order, ds, k')
    {
      ghost var start := View();
      assert Backed(start, a) && SameProvider(before, start, a);
      var r := UpdateProviderCollateralForPayout(a, d.purchased, d.payout);
      if !r.Done? {
        return false;
      }
      ghost var mid := View();
      CollateralPaidKeeps(start, mid, a, d.purchased, d.payout, paid);
      assert Backed(mid, a);
      StillBacked(Free(start.providers[a]), start.providers[a].bonded, d.purchased, d.payout);
      r := MakePayoutByProviderDelegations(a, d.purchased, d.payout, due);
      if !r.Done? {
        return false;
      }
      MetOneKeeps(before, start, mid, View(), order, ds, k, paid, k', paid');
      MetNext(before, start, mid, View(), order, ds, k, k');
      return true;
    }

    /** Works out the demand on the `i`-th provider and makes it meet it. */
    method PayNext(i: nat, a: Address, collateral: nat, r: nat, s: nat, toCover: nat, toPay: nat, due: int,
                   ghost before: Ledger, ghost order: seq<Address>, ghost cs: seq<nat>, ghost all: seq<Demand>, ghost paid: nat)
      returns (i': nat, toCover': nat, toPay': nat, ok: bool, ghost paid': nat)
      requires Asked(before, order, all) && |cs| == |order| && i < |order| && toPay > 0
      requires a == order[i] && collateral == cs[i] && StakeOk(before, a)
      requires Pending(cs, r, s, all, i, toCover, toPay) && paid == PaidUpto(all, i)
      requires Between(before, View(), order, i, paid) && Met(before, View(), order, all, i)
      modifies this
      ensures i' == i + 1 && paid' + toPay' == paid + toPay
      ensures i < |all| && (ok <==> Meets(before, a, all[i]))
      ensures Pending(cs, r, s, all, i', toCover', toPay') && paid' == PaidUpto(all, i')
      ensures ok ==> Between(before, View(), order, i', paid') && Met(before, View(), order, all, i')
    {
      hide Between, Met, Asked, StakeOk, Meets;
      var d := DemandOn(collateral, r, s, toCover, toPay);
      i', toCover', toPay', paid' := i + 1, toCover - d.purchased, toPay - d.payout, paid + d.payout;
      PendingNext(cs, r, s, all, i, toCover, toPay, d, i', toCover', toPay');
      ok := MeetDemand(i, a, d, due, before, order, all, paid, i', paid');
      assert Before(i') == i;
    }

    /** Makes the providers meet the demands on them in turn, until the loss is paid or nobody is left. */
    method PayProviders(order: seq<Address>, totalShield: nat, loss: nat, due: int, ghost all: seq<Demand>)
      returns (toPay: nat, ok: bool)
      requires Solvent(View(), order) && 0 < totalCollateral && all == LossDemands(View(), order, totalShield, loss)
      requires Asked(View(), order, all) && Between(View(), View(), order, 0, 0)
      requires forall b :: b in order ==> StakeOk(View(), b)
      modifies this
      ensures ok <==> AllMeet(old(View()), order, all)
      ensures ok ==> Paid(all) + toPay == loss
      ensures ok ==> Between(old(View()), View(), order, |all|, Paid(all)) && Met(old(View()), View(), order, all, |all|)
    {
      ghost var before := View();
      assert Met(before, View(), order, all, 0) && MeetUpto(before, order, all, 0);
      var snapshot := providers;
      var r, s := Ratio(totalShield, totalCollateral), Ratio(loss, totalCollateral);
      var i: nat, toCover: nat := 0, totalShield;
      toPay, ok := loss, true;
      ghost var cs := Amounts(before, order);
      ghost var paid: nat := 0;
      assert cs[0..] == cs && all[0..] == all;
      assert paid == PaidUpto(all, 0);
      assert Pending(cs, r, s, all, 0, totalShield, loss);
      hide Between, Met, Asked, StakeOk, Meets, MeetUpto, LossDemands, Pending, Amounts, PaidUpto, Paid;
      while i < |order| && toPay > 0
        invariant Pending(cs, r, s, all, i, toCover, toPay) && i <= |all| && paid == PaidUpto(all, i)
        invariant paid + toPay == loss && MeetUpto(before, order, all, i)
        invariant Between(before, View(), order, i, paid) && Met(before, View(), order, all, i)
      {
        var a := order[i];
        ghost var k := i;
        i, toCover, toPay, ok, paid := PayNext(i, a, snapshot[a].collateral, r, s, toCover, toPay, due, before, order, cs, all, paid);
        MeetNext(before, order, all, k, i);
        if !ok {
          return;
        }
      }
      PendingDone(cs, r, s, all, i, toCover, toPay);
    }

    /**
      Pays a loss out of the providers' collateral. It goes through exactly when there is any,
      the providers' truncated shares, with one unit more for each provider that has one to spare,
      come to the loss, and every provider asked to pay has the collateral and the stake to pay and
      still cover its part of the shield.
    */
    method CreateReimbursement(order: seq<Address>, totalShield: nat, loss: nat, due: int) returns (r: Result)
      requires Inv(View()) && Enumerates(order, providers) && Solvent(View(), order)
      requires forall b :: b in providers ==> StakeOk(View(), b)
      modifies this
      ensures !r.NotFound?
      ensures r.Done? <==>
                && 0 < old(totalCollateral)
                && loss <= Capacity(Amounts(old(View()), order), Ratio(totalShield, old(totalCollateral)),
                                    Ratio(loss, old(totalCollateral)), totalShield)
                && AllMeet(old(View()), order, LossDemands(old(View()), order, totalShield, loss))
      ensures r.Done? ==> ReimbursedIn(old(View()), View(), order, totalShield, loss) && Inv(View())
    {
      hide Capacity, AllMeet, Met, Asked, Amounts, Demands, Ratio, StakeOk;
      ghost var before := View();
      TotalsNonNegative(before);
      if totalCollateral == 0 {
        return Halted;
      }
      ghost var all := LossDemands(before, order, totalShield, loss);
      LossAsked(before, order, totalShield, loss);
      PaidIffCapacity(Amounts(before, order), Ratio(totalShield, totalCollateral), Ratio(loss, totalCollateral), totalShield, loss);
      assert Between(before, before, order, 0, 0);
      var toPay, met := PayProviders(order, totalShield, loss, due, all);
      if !met || toPay > 0 {
        return Halted;
      }
      SettledKeeps(View(), loss);
      SettleLoss(loss);
      return Done;
    }

    method SettleLoss(loss: nat)
      modifies this
      ensures View() == Settled(old(View()), loss)
      ensures Unsettled(View(), loss) == old(View())
    {
      totalCollateral := totalCollateral - loss;
    }

    /** The amount of `a` that leaves the queue by time `t`. */
    method ComputeWithdrawAmountByTime(a: Address, t: int) returns (amount: nat)
      ensures amount == Measure(queue, OwnedDueBy(a, t))
    {
      amount := 0;
      for i := 0 to |queue|
        invariant amount == Measure(queue[..i], OwnedDueBy(a, t))
      {
        assert queue[..i + 1] == queue[..i] + [queue[i]];
        MeasureAppend(queue[..i], [queue[i]], OwnedDueBy(a, t));
        assert [queue[i]][1..] == [];
        if queue[i].owner == a && queue[i].time <= t {
          amount := amount + queue[i].amount;
        }
      }
      assert queue[..|queue|] == queue;
    }

    /** The amount of `a` that finishes unbonding after time `t`. */
    method ComputeUnbondingAfter(a: Address, t: int) returns (amount: int)
      ensures amount == Measure(UnbondingsOf(View(), a), Amount()) - Measure(UnbondingsOf(View(), a), DueBy(t))
    {
      var entries := if a in unbondings then unbondings[a] else [];
      amount := 0;
      for i := 0 to |entries|
        invariant amount == Measure(entries[..i], Amount()) - Measure(entries[..i], DueBy(t))
      {
        assert entries[..i + 1] == entries[..i] + [entries[i]];
        MeasureAppend(entries[..i], [entries[i]], Amount());
        MeasureAppend(entries[..i], [entries[i]], DueBy(t));
        MeasureOne(entries[i], Amount());
        MeasureOne(entries[i], DueBy(t));
        if entries[i].time > t {
          amount := amount + entries[i].amount;
        }
      }
      assert entries[..|entries|] == entries;
    }

    /**
      Keeps an amount of a provider's collateral until `end`, delaying withdrawals as needed. It
      halts exactly when the provider's stake does not last; delaying withdrawals never does.
    */
    method SecureFromProvider(a: Address, amount: nat, end: int) returns (ok: bool)
      requires Inv(View()) && a in providers && amount <= providers[a].collateral
      modifies this
      ensures ok <==> StakeLasts(old(View()), a, amount, end)
      ensures Inv(View()) && Postponed(old(View()), View())
      ensures forall b, t :: b != a ==> Measure(queue, OwnedDueBy(b, t)) == Measure(old(queue), OwnedDueBy(b, t))
      ensures ok ==> Held(View(), a, amount, end)
    {
      ok := true;
      ghost var before := View();
      var p := providers[a];
      assert Backed(before, a);
      if Free(p) >= amount && p.bonded >= amount {
        FreeHeld(before, a, amount, end);
        return;
      }
      var withdrawn := ComputeWithdrawAmountByTime(a, end);
      var available := p.collateral - withdrawn;
      var unbonding := ComputeUnbondingAfter(a, end);
      if available > p.bonded + unbonding {
        return false;
      }
      if amount <= available {
        EnoughHeld(before, a, amount, end);
        return;
      }
      var delay: nat := amount - available;
      ghost var n := HoldBack(a, delay, end);
      DelayedSecures(before, View(), a, n, delay, amount, end);
      DelayedOthers(before.queue, queue, a, n, delay, end);
    }

    /** Delays withdrawals of `a` that mature by `end`; they are enough for what is asked. */
    method HoldBack(a: Address, delay: nat, end: int) returns (ghost n: nat)
      requires Sorted(queue) && delay <= Measure(queue, OwnedDueBy(a, end))
      modifies this
      ensures View() == old(View()).(queue := queue)
      ensures DelayedFor(old(queue), queue, a, n, delay, end)
    {
      var count := CountDue(queue, end);
      var q, left := DelayWithdraws(queue, a, count, delay, end);
      assert DelayedFor(queue, q, a, count, delay, end);
      DelayedHolds(queue, q, a, count, delay, end, end - 1);
      if left > 0 {
        assert false;
      }
      queue := q;
      n := count;
    }

    /** Secures the `i`-th provider's share on top of those before it. */
    method SecureNext(i: nat, a: Address, amount: nat, end: int, ghost before: Ledger, ghost order: seq<Address>, ghost shares: seq<nat>, ghost i': nat)
      returns (ok: bool)
      requires Inv(View()) && Postponed(before, View()) && i < |shares| && i' == i + 1 && AllHeld(View(), order, shares, i, end)
      requires Unmoved(before, View(), order, i) && forall j, k :: 0 <= j < k < |order| ==> order[j] != order[k]
      requires a == order[i] && amount == shares[i] && a in providers && amount <= providers[a].collateral
      modifies this
      ensures ok <==> StakeLasts(before, a, amount, end)
      ensures Inv(View()) && Postponed(before, View()) && Unmoved(before, View(), order, i')
      ensures ok ==> AllHeld(View(), order, shares, i', end)
    {
      ghost var mid := View();
      UnmovedLasts(before, mid, order, i, amount, end);
      ok := SecureFromProvider(a, amount, end);
      PostponedTwice(before, mid, View());
      UnmovedNext(before, mid, View(), order, i, i');
      if ok {
        AllHeldNext(mid, View(), order, shares, i, i', end);
      }
    }

    /**
      Secures every provider's share of the claimed total; together the shares are the total, or
      all that can be asked for if that is less. It halts exactly when the stake of some provider
      does not last for its share.
    */
    method SecureFromProviders(order: seq<Address>, total: nat, end: int, ghost shares: seq<nat>) returns (ok: bool)
      requires Inv(View()) && Enumerates(order, providers) && Solvent(View(), order)
      requires total <= totalCollateral && 0 < totalCollateral
      requires shares == Shares(Amounts(View(), order), Ratio(total, totalCollateral), total)
      modifies this
      ensures ok <==> StakesLast(old(View()), order, shares, |shares|, end)
      ensures Inv(View()) && Postponed(old(View()), View())
      ensures Sum(shares) == Min(total, Caps(Amounts(old(View()), order), Ratio(total, old(totalCollateral))))
      ensures Within(shares, Amounts(old(View()), order))
      ensures ok ==> AllHeld(View(), order, shares, |order|, end)
    {
      ghost var before := View();
      ghost var cs := Amounts(before, order);
      AmountsTotal(before, order);
      RatioAtMostOne(total, totalCollateral);
      SharesSum(cs, Ratio(total, totalCollateral), total);
      var ratio := Ratio(total, totalCollateral);
      var remaining: nat, i: nat := total, 0;
      ok := true;
      assert cs[0..] == cs && shares[0..] == shares;
      PostponedSelf(before);
      hide Postponed, Unmoved, StakesLast, AllHeld, Inv, Shares;
      while i < |order|
        invariant Follow(shares, cs, ratio, i, remaining)
        invariant Unmoved(before, View(), order, i) && StakesLast(before, order, shares, i, end)
        invariant Inv(View()) && Postponed(before, View()) && AllHeld(View(), order, shares, i, end)
      {
        var a := order[i];
        var secured, left, i' := NextBumped(providers[a].collateral, ratio, remaining, shares, cs, i);
        ok := SecureNext(i, a, secured, end, before, order, shares, i');
        StakesLastNext(before, order, shares, i, i', end);
        if !ok {
          return;
        }
        remaining, i := left, i';
      }
    }
  }
}
