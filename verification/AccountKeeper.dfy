/** The keeper of the shield module account: the store is updated in place. */
module AccountKeeper {
  import opened Dec
  import opened Split
  import opened Totals
  import opened WithdrawQueue
  import opened Purchases
  import A = Account

  datatype Result = Done | NotFound | NotEnoughStaked | WrongBeneficiary | TooEarly | Halted

  class Keeper {
    var balance: int
    var remaining: nat
    var blockFees: nat
    var rewards: map<Address, nat>
    var stakes: map<Key, A.Stake>
    var originals: map<nat, nat>
    var stakingPool: int
    var reimbursements: map<nat, A.Reimbursement>
    ghost var owners: map<nat, Key>

    ghost function View(): A.Account
      reads this
    {
      A.Account(balance, remaining, blockFees, rewards, stakes, originals, owners, stakingPool, reimbursements)
    }

    constructor ()
      ensures A.Inv(View())
    {
      balance, remaining, blockFees, rewards := 0, 0, 0, map[];
      stakes, originals, stakingPool, owners, reimbursements := map[], map[], 0, map[], map[];
    }

    method FundShieldBlockRewards(amount: nat)
      requires A.Inv(View())
      modifies this
      ensures View() == A.FundBlockRewards(old(View()), amount) && A.Inv(View())
    {
      A.FeesKeep(View(), amount);
      hide A.Inv;
      balance := balance + amount;
      blockFees := blockFees + FromInt(amount);
    }

    /** Awards one provider its fee, taking it out of what remains. */
    method AwardFee(a: Address, collateral: nat, totalCollateral: nat, fees: nat, left: nat) returns (left': nat)
      requires totalCollateral > 0
      modifies `rewards
      ensures View().(remaining := left')
              == A.Award(old(View()).(remaining := left), a, A.Fee(fees, collateral, totalCollateral, left))
    {
      var fee := Mul(fees, FromInt(collateral) / totalCollateral);
      if fee > left {
        fee := left;
      }
      rewards := rewards[a := (if a in rewards then rewards[a] else 0) + fee];
      left' := left - fee;
    }

    method AwardFees(order: seq<Address>, collaterals: seq<nat>, totalCollateral: nat, fees: nat, left: nat) returns (left': nat)
      requires |order| == |collaterals| && (order != [] ==> totalCollateral > 0)
      modifies `rewards
      ensures View().(remaining := left')
              == A.ShareOut(old(View()).(remaining := left), order, collaterals, totalCollateral, fees)
    {
      hide A.Award, A.Fee;
      left' := left;
      ghost var after := A.ShareOut(View().(remaining := left), order, collaterals, totalCollateral, fees);
      for i := 0 to |order|
        invariant A.ShareOut(View().(remaining := left'), order[i..], collaterals[i..], totalCollateral, fees) == after
      {
        assert order[i..][1..] == order[i + 1..] && collaterals[i..][1..] == collaterals[i + 1..];
        left' := AwardFee(order[i], collaterals[i], totalCollateral, fees, left');
      }
    }

    /**
      Distributes a block's fees among the providers. It halts exactly when there are providers
      but no collateral: the first share is a division by zero.
    */
    method DistributeFees(order: seq<Address>, collaterals: seq<nat>, totalCollateral: nat, serviceFees: nat) returns (r: Result)
      requires A.Inv(View()) && |order| == |collaterals|
      modifies this
      ensures r.Done? || r.Halted?
      ensures r.Halted? <==> totalCollateral == 0 && order != []
      ensures r.Done? ==> View() == A.Distribute(old(View()), order, collaterals, totalCollateral, serviceFees) && A.Inv(View())
    {
      var fees := if remaining < serviceFees then remaining else serviceFees;
      var block := blockFees;
      fees := fees + block;
      if totalCollateral == 0 && order != [] {
        return Halted;
      }
      A.DistributeKeeps(View(), order, collaterals, totalCollateral, serviceFees);
      hide A.Inv, A.ShareOut;
      ghost var was := View();
      blockFees := 0;
      var left := AwardFees(order, collaterals, totalCollateral, fees, remaining);
      assert was.(blockFees := 0).(remaining := was.remaining) == was.(blockFees := 0);
      remaining := left + block;
      return Done;
    }

    /** Pays a provider the whole coins of its rewards, which the account always holds. */
    method PayoutNativeRewards(a: Address) returns (paid: nat)
      requires A.Inv(View())
      modifies this
      ensures View() == A.Payout(old(View()), a) && A.Inv(View())
      ensures paid == A.RewardAt(old(View()), a) / ONE <= old(balance)
    {
      A.PayoutKeeps(View(), a);
      hide A.Inv;
      var reward := if a in rewards then rewards[a] else 0;
      paid := reward / ONE;
      if paid == 0 {
        return;
      }
      rewards := rewards[a := 0];
      remaining := remaining + reward % ONE;
      balance := balance - paid;
    }

    /** Takes in the stake for a new purchase. */
    method AddStaking(k: Key, id: nat, amount: nat)
      requires A.Inv(View()) && id !in owners && amount > 0
      modifies this
      ensures View() == A.AddStaking(old(View()), k, id, amount) && A.Inv(View())
    {
      A.AddStakingKeeps(View(), k, id, amount);
      hide A.Inv, A.AddStaking;
      WriteStaking(k, id, amount);
    }

    method WriteStaking(k: Key, id: nat, amount: nat)
      modifies this
      ensures View() == A.AddStaking(old(View()), k, id, amount)
    {
      balance := balance + amount;
      stakingPool := stakingPool + amount;
      var stake := if k in stakes then stakes[k].(amount := stakes[k].amount + amount) else A.Stake(amount, 0);
      stakes := stakes[k := stake];
      originals := originals[id := amount];
      owners := owners[id := k];
    }

    method UnstakeFromShield(k: Key, amount: nat) returns (r: Result)
      requires A.Inv(View())
      modifies this
      ensures View() == A.Unstake(old(View()), k, amount) && A.Inv(View())
      ensures r.NotFound? <==> k !in old(stakes)
      ensures r.Done? <==> k in old(stakes) && old(stakes[k].requested) + amount <= old(stakes[k].amount)
    {
      A.UnstakeKeeps(View(), k, amount);
      hide A.Inv;
      if k !in stakes {
        return NotFound;
      }
      var stake := stakes[k];
      if stake.requested + amount > stake.amount {
        return NotEnoughStaked;
      }
      stakes := stakes[k := stake.(requested := stake.requested + amount)];
      return Done;
    }

    /** Refunds the stake of an expired purchase of the pair; the transfer out never fails. */
    method RefundStake(k: Key, id: nat) returns (amount: nat, renew: bool)
      requires A.Inv(View()) && (id in originals ==> owners[id] == k)
      modifies this
      ensures View() == A.Refund(old(View()), k, id) && A.Inv(View())
      ensures amount == (if k in old(stakes) && id in old(originals) then old(originals[id]) else 0) <= old(balance)
      ensures renew <==> k in old(stakes) && id in old(originals) && old(stakes[k].requested) < old(originals[id])
    {
      A.RefundKeeps(View(), k, id);
      A.BalanceNonNegative(View());
      hide A.Inv;
      if k !in stakes || id !in originals {
        return 0, false;
      }
      var stake := stakes[k];
      amount := originals[id];
      balance := balance - amount;
      originals := originals - {id};
      stakingPool := stakingPool - amount;
      renew := amount - stake.requested > 0;
      stake := A.Stake(stake.amount - amount, stake.requested - Min(stake.requested, amount));
      stakes := if stake.amount == 0 then stakes - {k} else stakes[k := stake];
    }

    /** The expiry of a staked purchase: refund, then renewal unless all of it was asked back. */
    method ProcessStakeForShieldExpiration(k: Key, id: nat, renewal: A.Renewal)
      requires A.Inv(View()) && (id in originals ==> owners[id] == k)
      requires renewal.Renewal? ==> renewal.id !in owners && renewal.amount > 0
      modifies this
      ensures View() == A.Expire(old(View()), k, id, renewal) && A.Inv(View())
    {
      hide A.Inv, A.AddStaking;
      ghost var before := View();
      var amount, renew := RefundStake(k, id);
      assert owners == before.owners;
      if renew && renewal.Renewal? {
        AddStaking(k, renewal.id, renewal.amount);
      }
    }

    /** Books the reimbursement of a proposal not reimbursed before. */
    method SetReimbursement(id: nat, r: A.Reimbursement)
      requires A.Inv(View()) && id !in reimbursements
      modifies this
      ensures View() == A.Reimburse(old(View()), id, r) && A.Inv(View())
    {
      A.ReimburseKeepsIff(View(), id, r);
      hide A.Inv;
      balance := balance + r.amount;
      reimbursements := reimbursements[id := r];
    }

    /** Pays a reimbursement, whose coins the account always holds. */
    method WithdrawReimbursement(id: nat, beneficiary: Address, now: int) returns (r: Result, amount: nat)
      requires A.Inv(View())
      modifies this
      ensures View() == A.Claim(old(View()), id, beneficiary, now) && A.Inv(View())
      ensures r.NotFound? <==> id !in old(reimbursements)
      ensures r.Done? <==> id in old(reimbursements) && old(reimbursements[id].beneficiary) == beneficiary && old(reimbursements[id].payoutTime) <= now
      ensures r.Done? ==> amount == old(reimbursements[id].amount) <= old(balance)
    {
      A.ClaimKeeps(View(), id, beneficiary, now);
      hide A.Inv;
      if id !in reimbursements {
        return NotFound, 0;
      }
      var due := reimbursements[id];
      if due.beneficiary != beneficiary {
        return WrongBeneficiary, 0;
      }
      if due.payoutTime > now {
        return TooEarly, 0;
      }
      balance := balance - due.amount;
      reimbursements := reimbursements - {id};
      return Done, due.amount;
    }
  }
}
