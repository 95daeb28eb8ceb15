/** Who the coins of the shield account go to: fees to providers, stakes asked back, and reimbursements to beneficiaries. */
module Dues {
  import opened Dec
  import opened Split
  import opened Totals
  import opened WithdrawQueue
  import opened Purchases
  import opened Account

  // ----- Fees -----

  /** What is given for block rewards is due to the providers with the next fees, in full. */
  lemma FundedIsDue(acc: Account, amount: nat, serviceFees: nat)
    ensures var funded := FundBlockRewards(acc, amount);
            FeesDue(funded, serviceFees) == FeesDue(acc, serviceFees) + amount * ONE && funded.balance == acc.balance + amount
  {
  }

  /** A provider who withdraws is paid its whole coins, and only if there are any; nobody else's reward changes. */
  lemma PaidWhole(acc: Account, a: Address, b: Address)
    ensures var acc', coins := Payout(acc, a), acc.balance - Payout(acc, a).balance;
            && coins * ONE <= RewardAt(acc, a) < coins * ONE + ONE
            && RewardAt(acc', b) == (if a == b && 0 < coins then 0 else RewardAt(acc, b))
            && acc'.remaining == acc.remaining + (if 0 < coins then RewardAt(acc, a) - coins * ONE else 0)
  {
  }

  // ----- Stakes -----

  function UnstakeAll(acc: Account, k: Key, amounts: seq<nat>): Account
    decreases |amounts|
  {
    if amounts == [] then acc else UnstakeAll(Unstake(acc, k, amounts[0]), k, amounts[1..])
  }

  /** Requests for stake are all on record as long as they come to no more than is staked; one that goes beyond changes nothing. */
  lemma {:induction false} RequestsAddUp(acc: Account, k: Key, amounts: seq<nat>)
    requires k in acc.stakes && acc.stakes[k].requested + Sum(amounts) <= acc.stakes[k].amount
    ensures var acc' := UnstakeAll(acc, k, amounts);
            k in acc'.stakes && acc'.stakes[k] == Stake(acc.stakes[k].amount, acc.stakes[k].requested + Sum(amounts))
    ensures forall beyond: nat :: acc.stakes[k].requested + Sum(amounts) + beyond > acc.stakes[k].amount ==>
              Unstake(UnstakeAll(acc, k, amounts), k, beyond) == UnstakeAll(acc, k, amounts)
    decreases |amounts|
  {
    if amounts != [] {
      RequestsAddUp(Unstake(acc, k, amounts[0]), k, amounts[1..]);
    }
  }

  // ----- Reimbursements -----

  /** The beneficiary withdraws a reimbursement whose time has come. */
  predicate Withdraws(acc: Account, action: Action, id: nat) {
    && id in acc.reimbursements && action.WithdrawReimbursement? && action.id == id
    && action.beneficiary == acc.reimbursements[id].beneficiary && acc.reimbursements[id].payoutTime <= action.now
  }

  /** A reimbursement is paid, in full, exactly when its beneficiary withdraws it; until then it stays as it is. */
  lemma StepReimbursed(acc: Account, action: Action, id: nat)
    requires Allowed(acc, action) && id in acc.reimbursements
    ensures var acc' := Step(acc, action);
            if Withdraws(acc, action, id) then id !in acc'.reimbursements && acc'.balance == acc.balance - acc.reimbursements[id].amount
            else id in acc'.reimbursements && acc'.reimbursements[id] == acc.reimbursements[id]
  {
    match action
    case EndBlock(order, collaterals, totalCollateral, serviceFees) =>
      hide ShareOut, Total, FeesDue;
      ShareOutKeeps(acc.(blockFees := 0), order, collaterals, totalCollateral, FeesDue(acc, serviceFees));
    case _ =>
  }

  lemma RunAt(states: seq<Account>, actions: seq<Action>, i: nat)
    requires IsRun(states, actions) && i < |actions|
    ensures |states| == |actions| + 1 && Allowed(states[i], actions[i]) && states[i + 1] == Step(states[i], actions[i])
  {
    hide Allowed, Step;
  }

  /** A beneficiary that waits finds its reimbursement however long the run; it is gone only if it was withdrawn. */
  lemma {:induction false} RunReimbursed(states: seq<Account>, actions: seq<Action>, i: nat, k: nat, id: nat)
    requires IsRun(states, actions) && i <= k < |states| && id in states[i].reimbursements
    requires forall j :: i <= j < k && j < |actions| && j < |states| ==> !Withdraws(states[j], actions[j], id)
    ensures id in states[k].reimbursements && states[k].reimbursements[id] == states[i].reimbursements[id]
  {
    hide IsRun, Step, Withdraws;
    if k > i {
      RunReimbursed(states, actions, i, k - 1, id);
      RunLength(states, actions);
      RunAt(states, actions, k - 1);
      StepReimbursed(states[k - 1], actions[k - 1], id);
    }
  }

  lemma RunLength(states: seq<Account>, actions: seq<Action>)
    requires IsRun(states, actions)
    ensures |states| == |actions| + 1
  {
    hide Allowed, Step;
  }
}
