/**
  The coins of the shield module account and everything they are owed to: service fees not yet
  distributed, provider rewards, block fees, stakes for shield and reimbursements.
*/
module Account {
  import opened Dec
  import opened Split
  import opened Totals
  import opened WithdrawQueue
  import opened Purchases

  datatype Stake = Stake(amount: int, requested: int)

  datatype Reimbursement = Reimbursement(amount: nat, beneficiary: Address, payoutTime: int)

  /**
    Fees and rewards are decimals, all else is in whole coins. `originals` holds what was staked
    for each purchase, and `owners` the pool and purchaser it belongs to.
  */
  datatype Account = Account(
    balance: int,
    remaining: nat,
    blockFees: nat,
    rewards: map<Address, nat>,
    stakes: map<Key, Stake>,
    originals: map<nat, nat>,
    owners: map<nat, Key>,
    stakingPool: int,
    reimbursements: map<nat, Reimbursement>)

  ghost function Reward(a: Address, reward: nat): int {
    reward
  }

  ghost function Staked(k: Key, s: Stake): int {
    s.amount
  }

  ghost function Original(id: nat, amount: nat): int {
    amount
  }

  /** The original stakings of one pool and purchaser. */
  ghost function OriginalOf(owners: map<nat, Key>, k: Key): (nat, nat) -> int {
    (id: nat, amount: nat) => if id in owners && owners[id] == k then amount else 0
  }

  ghost function Reimbursed(id: nat, r: Reimbursement): int {
    r.amount
  }

  // ----- What every operation keeps -----

  /** The coins held are exactly those owed. */
  ghost predicate Conserved(acc: Account) {
    acc.balance * ONE
    == acc.remaining + Total(acc.rewards, Reward) + acc.blockFees
     + (Total(acc.stakes, Staked) + Total(acc.reimbursements, Reimbursed)) * ONE
  }

  /** A pair's stake is what its purchases staked, with no more of it requested back than there is. */
  ghost predicate StakeOk(acc: Account, k: Key) {
    && StakeAt(acc, k).amount == Total(acc.originals, OriginalOf(acc.owners, k))
    && 0 <= StakeAt(acc, k).requested <= StakeAt(acc, k).amount
    && (k in acc.stakes ==> acc.stakes[k].amount > 0)
  }

  ghost function StakeAt(acc: Account, k: Key): Stake {
    if k in acc.stakes then acc.stakes[k] else Stake(0, 0)
  }

  /** The registered global staking pool invariant, refined down to single purchases. */
  ghost predicate StakesOk(acc: Account) {
    && acc.stakingPool == Total(acc.stakes, Staked)
    && acc.stakingPool == Total(acc.originals, Original)
    && (forall k :: StakeOk(acc, k))
    && (forall id :: id in acc.originals ==> acc.originals[id] > 0 && id in acc.owners)
  }

  ghost predicate Inv(acc: Account) {
    && Conserved(acc)
    && StakesOk(acc)
    && acc.blockFees % ONE == 0
  }

  /** The registered module account invariant: whole coins on both sides, with no change left. */
  lemma ModuleAccountInvariant(acc: Account)
    requires Inv(acc)
    ensures var total := acc.remaining + Total(acc.rewards, Reward);
            && total % ONE == 0
            && acc.balance == total / ONE + Total(acc.stakes, Staked) + acc.blockFees / ONE + Total(acc.reimbursements, Reimbursed)
  {
    var total := acc.remaining + Total(acc.rewards, Reward);
    var rest := acc.balance - acc.blockFees / ONE - Total(acc.stakes, Staked) - Total(acc.reimbursements, Reimbursed);
    assert total == rest * ONE;
  }

  // ----- Fees -----

  /** Service fees of a purchase. */
  function PayFees(acc: Account, fees: nat): Account {
    acc.(balance := acc.balance + fees, remaining := acc.remaining + FromInt(fees))
  }

  function FundBlockRewards(acc: Account, amount: nat): Account {
    acc.(balance := acc.balance + amount, blockFees := acc.blockFees + FromInt(amount))
  }

  /** A provider's part of the fees, limited by what remains. */
  function Fee(fees: nat, collateral: nat, totalCollateral: nat, remaining: nat): (fee: nat)
    requires totalCollateral > 0
    ensures fee <= remaining
  {
    var fee := Mul(fees, FromInt(collateral) / totalCollateral);
    if fee > remaining then remaining else fee
  }

  function RewardAt(acc: Account, a: Address): nat {
    if a in acc.rewards then acc.rewards[a] else 0
  }

  /** The rates at which providers share in fees; they add up to one, short of at most a unit each. */
  function Rates(collaterals: seq<nat>, totalCollateral: nat): (rates: seq<nat>)
    requires totalCollateral > 0
    ensures |rates| == |collaterals|
  {
    if collaterals == [] then [] else [FromInt(collaterals[0]) / totalCollateral] + Rates(collaterals[1..], totalCollateral)
  }

  /** The providers' parts of the fees when enough remains for all of them. */
  function Parts(fees: nat, rates: seq<nat>): (parts: seq<nat>)
    ensures |parts| == |rates|
  {
    if rates == [] then [] else [Mul(fees, rates[0])] + Parts(fees, rates[1..])
  }

  lemma {:induction false} RatesSum(collaterals: seq<nat>, totalCollateral: nat)
    requires totalCollateral > 0
    ensures var sum := Sum(Rates(collaterals, totalCollateral));
            sum * totalCollateral <= Sum(collaterals) * ONE <= (sum + |collaterals|) * totalCollateral
  {
    if collaterals != [] {
      var rest := collaterals[1..];
      RatesSum(rest, totalCollateral);
      var rate, sum := FromInt(collaterals[0]) / totalCollateral, Sum(Rates(rest, totalCollateral));
      DivBounds(FromInt(collaterals[0]), totalCollateral);
      assert Sum(Rates(collaterals, totalCollateral)) == rate + sum;
      hide Rates, Sum;
      RateStep(rate, sum, |rest|, totalCollateral);
    }
  }

  lemma RateStep(rate: nat, sum: nat, n: nat, totalCollateral: nat)
    ensures (rate + sum) * totalCollateral == rate * totalCollateral + sum * totalCollateral
    ensures (rate + sum + (n + 1)) * totalCollateral == rate * totalCollateral + totalCollateral + (sum + n) * totalCollateral
  {
  }

  lemma {:induction false} PartsSum(fees: nat, rates: seq<nat>)
    ensures var sum := 2 * (Sum(Parts(fees, rates)) * ONE);
            2 * (fees * Sum(rates)) - |rates| * ONE <= sum <= 2 * (fees * Sum(rates)) + |rates| * ONE
  {
    if rates != [] {
      PartsSum(fees, rates[1..]);
      PartsStep(fees, rates[0], Sum(rates[1..]), Mul(fees, rates[0]), Sum(Parts(fees, rates[1..])), |rates[1..]|);
    }
  }

  lemma PartsStep(fees: nat, rate: nat, rates: nat, part: nat, parts: nat, n: nat)
    requires part == Mul(fees, rate)
    requires 2 * (fees * rates) - n * ONE <= 2 * (parts * ONE) <= 2 * (fees * rates) + n * ONE
    ensures 2 * (fees * (rate + rates)) - (n + 1) * ONE <= 2 * ((part + parts) * ONE) <= 2 * (fees * (rate + rates)) + (n + 1) * ONE
  {
    assert 2 * (fees * rate) - ONE <= 2 * (part * ONE) <= 2 * (fees * rate) + ONE;
    hide Mul;
    assert fees * (rate + rates) == fees * rate + fees * rates;
  }

  /** Together the parts are the fees, up to rounding: half a unit each, and what the rates fall short of one. */
  lemma PartsAddUp(collaterals: seq<nat>, totalCollateral: nat, fees: nat)
    requires 0 < totalCollateral == Sum(collaterals)
    ensures var sum := Sum(Parts(fees, Rates(collaterals, totalCollateral)));
            && 2 * sum <= 2 * fees + |collaterals|
            && 2 * (fees * ONE) <= 2 * (sum * ONE) + |collaterals| * ONE + 2 * (fees * |collaterals|)
  {
    hide Rates, Parts, Sum;
    var rates, n := Rates(collaterals, totalCollateral), |collaterals|;
    RatesSum(collaterals, totalCollateral);
    PartsSum(fees, rates);
    RatesNearOne(Sum(rates), n, totalCollateral);
    PartsNearFees(fees, Sum(rates), Sum(Parts(fees, rates)), n);
  }

  lemma PartsNearFees(fees: nat, rates: nat, parts: nat, n: nat)
    requires rates <= ONE <= rates + n
    requires 2 * (fees * rates) - n * ONE <= 2 * (parts * ONE) <= 2 * (fees * rates) + n * ONE
    ensures 2 * parts <= 2 * fees + n
    ensures 2 * (fees * ONE) <= 2 * (parts * ONE) + n * ONE + 2 * (fees * n)
  {
    Scale(rates, ONE, fees);
    Scale(ONE, rates + n, fees);
    assert fees * (rates + n) == fees * rates + fees * n;
  }

  lemma RatesNearOne(sum: nat, n: nat, totalCollateral: nat)
    requires 0 < totalCollateral && sum * totalCollateral <= totalCollateral * ONE <= (sum + n) * totalCollateral
    ensures sum <= ONE <= sum + n
  {
    if sum > ONE {
      Scale(ONE + 1, sum, totalCollateral);
    }
    if ONE > sum + n {
      Scale(sum + n + 1, ONE, totalCollateral);
    }
  }

  /** With enough remaining, sharing out leaves exactly what the parts do not take. */
  lemma {:induction false} ShareOutParts(acc: Account, order: seq<Address>, collaterals: seq<nat>, totalCollateral: nat, fees: nat)
    requires |order| == |collaterals| && totalCollateral > 0
    requires Sum(Parts(fees, Rates(collaterals, totalCollateral))) <= acc.remaining
    ensures ShareOut(acc, order, collaterals, totalCollateral, fees).remaining
         == acc.remaining - Sum(Parts(fees, Rates(collaterals, totalCollateral)))
    decreases |order|
  {
    if order != [] {
      hide Mul;
      var fee := Fee(fees, collaterals[0], totalCollateral, acc.remaining);
      ShareOutParts(Award(acc, order[0], fee), order[1..], collaterals[1..], totalCollateral, fees);
    }
  }

  /** Moves a fee from what remains to a provider's rewards. */
  function Award(acc: Account, a: Address, fee: nat): Account
    requires fee <= acc.remaining
  {
    acc.(rewards := acc.rewards[a := RewardAt(acc, a) + fee], remaining := acc.remaining - fee)
  }

  /** Awards the providers their fees in turn; `collaterals` are theirs, in the same order. */
  function ShareOut(acc: Account, order: seq<Address>, collaterals: seq<nat>, totalCollateral: nat, fees: nat): Account
    requires |order| == |collaterals| && (order != [] ==> totalCollateral > 0)
    decreases |order|
  {
    if order == [] then acc else
    var next := Award(acc, order[0], Fee(fees, collaterals[0], totalCollateral, acc.remaining));
    ShareOut(next, order[1..], collaterals[1..], totalCollateral, fees)
  }

  /** The fees due in a block, of which the service fees are limited by what remains, and the block fees on top. */
  function FeesDue(acc: Account, serviceFees: nat): nat {
    (if acc.remaining < serviceFees then acc.remaining else serviceFees) + acc.blockFees
  }

  function Distribute(acc: Account, order: seq<Address>, collaterals: seq<nat>, totalCollateral: nat, serviceFees: nat): Account
    requires |order| == |collaterals| && (order != [] ==> totalCollateral > 0)
  {
    var shared := ShareOut(acc.(blockFees := 0), order, collaterals, totalCollateral, FeesDue(acc, serviceFees));
    shared.(remaining := shared.remaining + acc.blockFees)
  }

  lemma AwardKeeps(acc: Account, a: Address, fee: nat)
    requires fee <= acc.remaining
    ensures var acc' := Award(acc, a, fee);
            acc'.remaining + Total(acc'.rewards, Reward) == acc.remaining + Total(acc.rewards, Reward)
  {
    var reward: nat := RewardAt(acc, a) + fee;
    TotalUpdate(acc.rewards, Reward, a, reward);
  }

  /** Sharing out moves coins between what remains and the rewards, and no reward ever falls. */
  lemma {:induction false} ShareOutKeeps(acc: Account, order: seq<Address>, collaterals: seq<nat>, totalCollateral: nat, fees: nat)
    requires |order| == |collaterals| && (order != [] ==> totalCollateral > 0)
    ensures var acc' := ShareOut(acc, order, collaterals, totalCollateral, fees);
            && acc' == acc.(rewards := acc'.rewards, remaining := acc'.remaining)
            && acc'.remaining + Total(acc'.rewards, Reward) == acc.remaining + Total(acc.rewards, Reward)
            && (forall a :: RewardAt(acc, a) <= RewardAt(acc', a))
    decreases |order|
  {
    if order != [] {
      hide Fee;
      var fee := Fee(fees, collaterals[0], totalCollateral, acc.remaining);
      AwardKeeps(acc, order[0], fee);
      ShareOutKeeps(Award(acc, order[0], fee), order[1..], collaterals[1..], totalCollateral, fees);
    }
  }

  lemma DistributeKeeps(acc: Account, order: seq<Address>, collaterals: seq<nat>, totalCollateral: nat, serviceFees: nat)
    requires Inv(acc) && |order| == |collaterals| && (order != [] ==> totalCollateral > 0)
    ensures Inv(Distribute(acc, order, collaterals, totalCollateral, serviceFees))
  {
    hide Total, ShareOut, FeesDue;
    ShareOutKeeps(acc.(blockFees := 0), order, collaterals, totalCollateral, FeesDue(acc, serviceFees));
    var acc' := Distribute(acc, order, collaterals, totalCollateral, serviceFees);
    SameStakes(acc, acc');
  }

  // ----- Who is paid -----

  /** What is left of an amount once the first `i` parts of it are taken. */
  function LeftAfter(remaining: nat, parts: seq<nat>, i: nat): (left: nat)
    requires i <= |parts|
    ensures left <= remaining
  {
    if i == 0 then remaining else
    var left := LeftAfter(remaining, parts, i - 1);
    left - Min(parts[i - 1], left)
  }

  lemma {:induction false} LeftAfterFirst(remaining: nat, parts: seq<nat>, i: nat)
    requires 0 < i <= |parts|
    ensures LeftAfter(remaining, parts, i) == LeftAfter(remaining - Min(parts[0], remaining), parts[1..], i - 1)
  {
    if i > 1 {
      LeftAfterFirst(remaining, parts, i - 1);
    }
  }

  lemma {:induction false} EnoughLeft(remaining: nat, parts: seq<nat>, i: nat)
    requires i <= |parts| && Sum(parts) <= remaining
    ensures LeftAfter(remaining, parts, i) == remaining - Sum(parts[..i]) && Sum(parts[..i]) <= Sum(parts)
  {
    assert parts[..i] + parts[i..] == parts;
    SumAppend(parts[..i], parts[i..]);
    if i > 0 {
      EnoughLeft(remaining, parts, i - 1);
      assert parts[..i] == parts[..i - 1] + [parts[i - 1]];
      SumAppend(parts[..i - 1], [parts[i - 1]]);
      assert [parts[i - 1]][1..] == [];
      assert parts[i..] + [] == parts[i..];
    }
  }

  lemma {:induction false} NotRewarded(acc: Account, order: seq<Address>, collaterals: seq<nat>, totalCollateral: nat, fees: nat, a: Address)
    requires |order| == |collaterals| && (order != [] ==> totalCollateral > 0) && a !in order
    ensures RewardAt(ShareOut(acc, order, collaterals, totalCollateral, fees), a) == RewardAt(acc, a)
    decreases |order|
  {
    if order != [] {
      hide Fee;
      NotRewarded(Award(acc, order[0], Fee(fees, collaterals[0], totalCollateral, acc.remaining)), order[1..], collaterals[1..], totalCollateral, fees, a);
    }
  }

  /** Each provider is awarded its own part of the fees, or what those before it left if that is less. */
  lemma {:induction false} RewardedPart(acc: Account, order: seq<Address>, collaterals: seq<nat>, totalCollateral: nat, fees: nat, i: nat)
    requires |order| == |collaterals| && totalCollateral > 0 && i < |order|
    requires forall j, k :: 0 <= j < k < |order| ==> order[j] != order[k]
    ensures var parts := Parts(fees, Rates(collaterals, totalCollateral));
            RewardAt(ShareOut(acc, order, collaterals, totalCollateral, fees), order[i])
            == RewardAt(acc, order[i]) + Min(parts[i], LeftAfter(acc.remaining, parts, i))
    decreases |order|
  {
    hide Mul;
    var parts := Parts(fees, Rates(collaterals, totalCollateral));
    var fee := Fee(fees, collaterals[0], totalCollateral, acc.remaining);
    var next := Award(acc, order[0], fee);
    assert fee == Min(parts[0], acc.remaining);
    assert parts[1..] == Parts(fees, Rates(collaterals[1..], totalCollateral));
    if i == 0 {
      NotRewarded(next, order[1..], collaterals[1..], totalCollateral, fees, order[0]);
    } else {
      LeftAfterFirst(acc.remaining, parts, i);
      RewardedPart(next, order[1..], collaterals[1..], totalCollateral, fees, i - 1);
    }
  }

  lemma {:induction false} PartsAt(fees: nat, collaterals: seq<nat>, totalCollateral: nat, i: nat)
    requires totalCollateral > 0 && i < |collaterals|
    ensures Parts(fees, Rates(collaterals, totalCollateral))[i] == Mul(fees, FromInt(collaterals[i]) / totalCollateral)
  {
    if i > 0 {
      hide Mul;
      PartsAt(fees, collaterals[1..], totalCollateral, i - 1);
    }
  }

  /** A part is that share of the fees which the collateral is of the whole, but for half a unit and the rounding of the rate. */
  ghost predicate ProRata(part: nat, fees: nat, collateral: nat, whole: nat) {
    && 2 * (part * whole) <= 2 * (fees * collateral) + whole
    && 2 * (fees * collateral) * ONE <= 2 * (part * whole) * ONE + whole * ONE + 2 * (fees * whole)
  }

  lemma PartProRata(fees: nat, collateral: nat, whole: nat)
    requires whole > 0
    ensures ProRata(Mul(fees, FromInt(collateral) / whole), fees, collateral, whole)
  {
    var rate := FromInt(collateral) / whole;
    var part := Mul(fees, rate);
    DivBounds(FromInt(collateral), whole);
    hide Mul;
    RateProRata(part, fees, rate, collateral, whole);
  }

  lemma RateProRata(part: nat, fees: nat, rate: nat, collateral: nat, whole: nat)
    requires 2 * (fees * rate) - ONE <= 2 * (part * ONE) <= 2 * (fees * rate) + ONE
    requires collateral * ONE - whole < rate * whole <= collateral * ONE
    ensures ProRata(part, fees, collateral, whole)
  {
    Scale(2 * (part * ONE), 2 * (fees * rate) + ONE, whole);
    Scale(2 * (fees * rate) - ONE, 2 * (part * ONE), whole);
    Scale(rate * whole, collateral * ONE, fees);
    Scale(collateral * ONE - whole, rate * whole, fees);
    assert fees * rate * whole == rate * whole * fees;
    assert collateral * ONE * fees == fees * collateral * ONE;
    assert part * ONE * whole == part * whole * ONE;
    assert (collateral * ONE - whole) * fees == fees * collateral * ONE - fees * whole;
  }

  /** With enough remaining for all parts, a provider is awarded its part whole. */
  lemma RewardedWhole(acc: Account, order: seq<Address>, collaterals: seq<nat>, totalCollateral: nat, fees: nat, i: nat)
    requires |order| == |collaterals| && totalCollateral > 0 && i < |order|
    requires forall j, k :: 0 <= j < k < |order| ==> order[j] != order[k]
    requires Sum(Parts(fees, Rates(collaterals, totalCollateral))) <= acc.remaining
    ensures RewardAt(ShareOut(acc, order, collaterals, totalCollateral, fees), order[i])
         == RewardAt(acc, order[i]) + Mul(fees, FromInt(collaterals[i]) / totalCollateral)
  {
    RewardedPart(acc, order, collaterals, totalCollateral, fees, i);
    PartsAt(fees, collaterals, totalCollateral, i);
    hide Mul, ShareOut, RewardAt;
    var parts := Parts(fees, Rates(collaterals, totalCollateral));
    EnoughLeft(acc.remaining, parts, i);
    EnoughLeft(acc.remaining, parts, i + 1);
    assert parts[..i + 1] == parts[..i] + [parts[i]];
    SumAppend(parts[..i], [parts[i]]);
    hide Parts, Rates;
    assert [parts[i]][1..] == [];
  }

  /**
    A block's fees are the service fees due, as far as they remain, and the block fees. When enough
    remains for all parts of them, every provider's reward grows by its pro-rata part, and nobody
    else's does; the parts leave what remains, and the block fees are added to it.
  */
  lemma FeesReachProviders(acc: Account, order: seq<Address>, collaterals: seq<nat>, totalCollateral: nat, serviceFees: nat, fees: nat, a: Address)
    requires |order| == |collaterals| && totalCollateral > 0 && fees == Min(serviceFees, acc.remaining) + acc.blockFees
    requires forall j, k :: 0 <= j < k < |order| ==> order[j] != order[k]
    requires Sum(Parts(fees, Rates(collaterals, totalCollateral))) <= acc.remaining
    ensures var acc' := Distribute(acc, order, collaterals, totalCollateral, serviceFees);
            && (a !in order ==> RewardAt(acc', a) == RewardAt(acc, a))
            && (forall i :: 0 <= i < |order| && order[i] == a ==>
                  RewardAt(acc, a) <= RewardAt(acc', a) && ProRata(RewardAt(acc', a) - RewardAt(acc, a), fees, collaterals[i], totalCollateral))
            && acc'.blockFees == 0
            && acc'.remaining == acc.remaining + acc.blockFees - Sum(Parts(fees, Rates(collaterals, totalCollateral)))
  {
    hide ProRata, Mul, ShareOut, Parts, Rates, Sum, Total;
    var funded := acc.(blockFees := 0);
    assert FeesDue(acc, serviceFees) == fees;
    ShareOutParts(funded, order, collaterals, totalCollateral, fees);
    ShareOutKeeps(funded, order, collaterals, totalCollateral, fees);
    if a !in order {
      NotRewarded(funded, order, collaterals, totalCollateral, fees, a);
    }
    forall i | 0 <= i < |order| && order[i] == a
      ensures var acc' := Distribute(acc, order, collaterals, totalCollateral, serviceFees);
              RewardAt(acc, a) <= RewardAt(acc', a) && ProRata(RewardAt(acc', a) - RewardAt(acc, a), fees, collaterals[i], totalCollateral)
    {
      RewardedWhole(funded, order, collaterals, totalCollateral, fees, i);
      PartProRata(fees, collaterals[i], totalCollateral);
    }
  }

  /** Two providers of one coin each share two coins of service fees, one coin to either. */
  lemma EqualShares(acc: Account)
    requires acc.remaining == 2 * ONE && acc.blockFees == 0
    ensures var acc' := Distribute(acc, [1, 2], [1, 1], 2, 2 * ONE);
            RewardAt(acc', 1) == RewardAt(acc, 1) + ONE && RewardAt(acc', 2) == RewardAt(acc, 2) + ONE
  {
    var order, collaterals: seq<nat> := [1, 2], [1, 1];
    HalfRate();
    hide Mul;
    assert Rates(collaterals[1..], 2) == [ONE / 2];
    assert Parts(2 * ONE, [ONE / 2, ONE / 2][1..]) == [ONE];
    assert Sum([ONE, ONE][1..]) == ONE;
    RewardedWhole(acc, order, collaterals, 2, 2 * ONE, 0);
    RewardedWhole(acc, order, collaterals, 2, 2 * ONE, 1);
  }

  lemma HalfRate()
    ensures FromInt(1) / 2 == ONE / 2 && Mul(2 * ONE, ONE / 2) == ONE
  {
  }

  lemma BalanceNonNegative(acc: Account)
    requires Inv(acc)
    ensures 0 <= acc.balance
  {
    AllOwed(acc, 0);
    TotalNonNegative(acc.rewards, Reward);
  }

  /** Pays out a provider's whole coins; the change goes back to the fees. */
  function Payout(acc: Account, a: Address): Account {
    var whole, change := RewardAt(acc, a) / ONE, RewardAt(acc, a) % ONE;
    if whole == 0 then acc
    else acc.(rewards := acc.rewards[a := 0], remaining := acc.remaining + change, balance := acc.balance - whole)
  }

  lemma PayoutKeeps(acc: Account, a: Address)
    requires Inv(acc)
    ensures Inv(Payout(acc, a)) && RewardAt(acc, a) / ONE <= acc.balance
  {
    var none: nat := 0;
    TotalUpdate(acc.rewards, Reward, a, none);
    AllOwed(acc, a);
    hide Total;
    SameStakes(acc, Payout(acc, a));
  }

  /** No debt is negative, so the coins cover each of them. */
  lemma AllOwed(acc: Account, a: Address)
    requires StakesOk(acc)
    ensures RewardAt(acc, a) <= Total(acc.rewards, Reward)
    ensures 0 <= Total(acc.stakes, Staked) && 0 <= Total(acc.reimbursements, Reimbursed)
  {
    if a in acc.rewards {
      TotalAtLeast(acc.rewards, Reward, a);
    } else {
      TotalNonNegative(acc.rewards, Reward);
    }
    forall k | k in acc.stakes
      ensures 0 <= acc.stakes[k].amount
    {
      assert StakeOk(acc, k);
    }
    TotalNonNegative(acc.stakes, Staked);
    TotalNonNegative(acc.reimbursements, Reimbursed);
  }

  lemma SameStakes(acc: Account, acc': Account)
    requires StakesOk(acc) && acc' == acc.(balance := acc'.balance, remaining := acc'.remaining, blockFees := acc'.blockFees,
                                           rewards := acc'.rewards, reimbursements := acc'.reimbursements)
    ensures StakesOk(acc')
  {
    forall k
      ensures StakeOk(acc', k)
    {
      assert StakeOk(acc, k);
    }
  }

  // ----- Stakes for shield -----

  /** Stakes coins for a new purchase. */
  function AddStaking(acc: Account, k: Key, id: nat, amount: nat): Account {
    var stake := if k in acc.stakes then acc.stakes[k].(amount := acc.stakes[k].amount + amount) else Stake(amount, 0);
    acc.(balance := acc.balance + amount, stakingPool := acc.stakingPool + amount, stakes := acc.stakes[k := stake],
         originals := acc.originals[id := amount], owners := acc.owners[id := k])
  }

  /** Asks for stake back once the purchases it stands for expire; refused beyond what is staked. */
  function Unstake(acc: Account, k: Key, amount: nat): Account {
    if k !in acc.stakes || acc.stakes[k].requested + amount > acc.stakes[k].amount then acc
    else acc.(stakes := acc.stakes[k := acc.stakes[k].(requested := acc.stakes[k].requested + amount)])
  }

  /** A stake after `amount` of it expired: requests are met first. */
  function Expired(s: Stake, amount: nat): Stake {
    Stake(s.amount - amount, s.requested - Min(s.requested, amount))
  }

  /** Refunds what was staked for an expired purchase. */
  function Refund(acc: Account, k: Key, id: nat): Account {
    if k !in acc.stakes || id !in acc.originals then acc else
    var amount := acc.originals[id];
    var stake := Expired(acc.stakes[k], amount);
    acc.(balance := acc.balance - amount, stakingPool := acc.stakingPool - amount, originals := acc.originals - {id},
         stakes := if stake.amount == 0 then acc.stakes - {k} else acc.stakes[k := stake])
  }

  /** The purchase that renews an expired one, if there is one. */
  datatype Renewal = NoRenewal | Renewal(id: nat, amount: nat)

  /** A renewal is only tried when some of the expired stake was not asked back. */
  function Expire(acc: Account, k: Key, id: nat, renewal: Renewal): Account {
    if k !in acc.stakes || id !in acc.originals then acc
    else if acc.originals[id] <= acc.stakes[k].requested || renewal.NoRenewal? then Refund(acc, k, id)
    else AddStaking(Refund(acc, k, id), k, renewal.id, renewal.amount)
  }

  /** The original stakings of a pair after adding those of one purchase. */
  lemma OriginalsAdd(acc: Account, k: Key, id: nat, amount: nat, j: Key)
    requires StakesOk(acc) && id !in acc.owners
    ensures var acc' := AddStaking(acc, k, id, amount);
            Total(acc'.originals, OriginalOf(acc'.owners, j)) == Total(acc.originals, OriginalOf(acc.owners, j)) + (if j == k then amount else 0)
  {
    var owners' := acc.owners[id := k];
    TotalUpdate(acc.originals, OriginalOf(owners', j), id, amount);
    TotalSame(acc.originals, OriginalOf(owners', j), OriginalOf(acc.owners, j));
  }

  lemma AddStakingKeeps(acc: Account, k: Key, id: nat, amount: nat)
    requires Inv(acc) && id !in acc.owners && amount > 0
    ensures Inv(AddStaking(acc, k, id, amount))
  {
    AddStakingTotals(acc, k, id, amount);
    hide Total, OriginalOf;
    var acc' := AddStaking(acc, k, id, amount);
    forall j
      ensures StakeOk(acc', j)
    {
      assert StakeOk(acc, j);
      OriginalsAdd(acc, k, id, amount, j);
    }
  }

  lemma AddStakingTotals(acc: Account, k: Key, id: nat, amount: nat)
    requires StakesOk(acc) && id !in acc.originals
    ensures var acc' := AddStaking(acc, k, id, amount);
            && Total(acc'.stakes, Staked) == Total(acc.stakes, Staked) + amount
            && Total(acc'.originals, Original) == Total(acc.originals, Original) + amount
  {
    TotalUpdate(acc.stakes, Staked, k, AddStaking(acc, k, id, amount).stakes[k]);
    TotalUpdate(acc.originals, Original, id, amount);
  }

  lemma UnstakeKeeps(acc: Account, k: Key, amount: nat)
    requires Inv(acc)
    ensures Inv(Unstake(acc, k, amount))
  {
    var acc' := Unstake(acc, k, amount);
    if acc' != acc {
      TotalUpdate(acc.stakes, Staked, k, acc'.stakes[k]);
      forall j
        ensures StakeOk(acc', j)
      {
        assert StakeOk(acc, j);
      }
    }
  }

  lemma OriginalsRemove(acc: Account, k: Key, id: nat, j: Key)
    requires id in acc.originals && id in acc.owners && acc.owners[id] == k
    ensures Total(acc.originals - {id}, OriginalOf(acc.owners, j))
         == Total(acc.originals, OriginalOf(acc.owners, j)) - (if j == k then acc.originals[id] else 0)
  {
    TotalDelete(acc.originals, OriginalOf(acc.owners, j), id);
  }

  lemma RefundTotals(acc: Account, k: Key, id: nat)
    requires StakesOk(acc) && k in acc.stakes && id in acc.originals
    ensures var acc' := Refund(acc, k, id);
            && Total(acc'.stakes, Staked) == Total(acc.stakes, Staked) - acc.originals[id]
            && Total(acc'.originals, Original) == Total(acc.originals, Original) - acc.originals[id]
  {
    var stake := Expired(acc.stakes[k], acc.originals[id]);
    if stake.amount == 0 {
      TotalDelete(acc.stakes, Staked, k);
    } else {
      TotalUpdate(acc.stakes, Staked, k, stake);
    }
    TotalDelete(acc.originals, Original, id);
  }

  /** A stake covers each of the original stakings it stands for. */
  lemma StakeCovers(acc: Account, id: nat)
    requires StakesOk(acc) && id in acc.originals
    ensures acc.owners[id] in acc.stakes && acc.originals[id] <= acc.stakes[acc.owners[id]].amount
  {
    var k := acc.owners[id];
    assert StakeOk(acc, k);
    TotalAtLeast(acc.originals, OriginalOf(acc.owners, k), id);
  }

  /** A refund takes a purchase's whole stake out of the account, which always holds it. */
  lemma RefundKeeps(acc: Account, k: Key, id: nat)
    requires Inv(acc) && (id in acc.originals ==> acc.owners[id] == k)
    ensures Inv(Refund(acc, k, id))
    ensures id in acc.originals ==> k in acc.stakes && acc.originals[id] <= acc.balance
  {
    if id in acc.originals {
      StakeCovers(acc, id);
      RefundTotals(acc, k, id);
      CoversStake(acc, k);
      hide Total;
      var acc' := Refund(acc, k, id);
      forall j
        ensures StakeOk(acc', j)
      {
        assert StakeOk(acc, j);
        OriginalsRemove(acc, k, id, j);
      }
    }
  }

  lemma CoversStake(acc: Account, k: Key)
    requires Inv(acc) && k in acc.stakes
    ensures acc.stakes[k].amount <= acc.balance
  {
    forall j | j in acc.stakes
      ensures 0 <= acc.stakes[j].amount
    {
      assert StakeOk(acc, j);
    }
    TotalAtLeast(acc.stakes, Staked, k);
    TotalNonNegative(acc.rewards, Reward);
    TotalNonNegative(acc.reimbursements, Reimbursed);
  }

  lemma ExpireKeeps(acc: Account, k: Key, id: nat, renewal: Renewal)
    requires Inv(acc) && (id in acc.originals ==> acc.owners[id] == k)
    requires renewal.Renewal? ==> renewal.id !in acc.owners && renewal.amount > 0
    ensures Inv(Expire(acc, k, id, renewal))
  {
    hide Inv;
    RefundKeeps(acc, k, id);
    if Expire(acc, k, id, renewal) != Refund(acc, k, id) {
      AddStakingKeeps(Refund(acc, k, id), k, renewal.id, renewal.amount);
    }
  }

  /**
    A renewal restakes the whole expired amount. So of a request for some of it nothing is left
    on the books, and the stake falls by what was asked back exactly when that was none or all.
  */
  lemma RequestHonouredIff(acc: Account, k: Key, id: nat, newId: nat)
    requires Inv(acc) && id in acc.originals && acc.owners[id] == k && k in acc.stakes
    ensures var amount, requested := acc.originals[id], acc.stakes[k].requested;
            var stake := StakeAt(Expire(acc, k, id, Renewal(newId, amount)), k);
            && stake.requested == requested - Min(requested, amount)
            && (stake.amount == acc.stakes[k].amount - Min(requested, amount) <==> requested == 0 || requested >= amount)
  {
    assert StakeOk(acc, k);
    StakeCovers(acc, id);
  }

  /** Ten coins staked, four of them asked back, and the purchase renewed: ten are staked again, and nothing is asked back any more. */
  lemma RequestDropped()
    ensures var k := Key(1, 1);
            var acc := Unstake(AddStaking(Empty(), k, 1, 10), k, 4);
            acc.stakes[k] == Stake(10, 4) && Expire(acc, k, 1, Renewal(2, 10)).stakes == map[k := Stake(10, 0)]
  {
    var k := Key(1, 1);
    var acc := Unstake(AddStaking(Empty(), k, 1, 10), k, 4);
    assert Refund(acc, k, 1).stakes == map[];
    assert Expire(acc, k, 1, Renewal(2, 10)).stakes == map[k := Stake(10, 0)];
  }

  // ----- Reimbursements -----

  /** Books a reimbursement whose coins have come in from the providers' delegations. */
  function Reimburse(acc: Account, id: nat, r: Reimbursement): Account {
    acc.(balance := acc.balance + r.amount, reimbursements := acc.reimbursements[id := r])
  }

  /** Pays a reimbursement to its beneficiary once the payout time has come. */
  function Claim(acc: Account, id: nat, beneficiary: Address, now: int): Account {
    if id !in acc.reimbursements then acc else
    var r := acc.reimbursements[id];
    if r.beneficiary != beneficiary || r.payoutTime > now then acc
    else acc.(balance := acc.balance - r.amount, reimbursements := acc.reimbursements - {id})
  }

  /** Coins go astray exactly when a reimbursement is stored over another one. */
  lemma ReimburseKeepsIff(acc: Account, id: nat, r: Reimbursement)
    requires Inv(acc)
    ensures Inv(Reimburse(acc, id, r)) <==> id !in acc.reimbursements || acc.reimbursements[id].amount == 0
  {
    TotalUpdate(acc.reimbursements, Reimbursed, id, r);
    hide Total;
    SameStakes(acc, Reimburse(acc, id, r));
  }

  lemma ClaimKeeps(acc: Account, id: nat, beneficiary: Address, now: int)
    requires Inv(acc)
    ensures Inv(Claim(acc, id, beneficiary, now))
    ensures id in acc.reimbursements ==> acc.reimbursements[id].amount <= acc.balance
  {
    if id in acc.reimbursements {
      TotalDelete(acc.reimbursements, Reimbursed, id);
      TotalAtLeast(acc.reimbursements, Reimbursed, id);
      AllOwed(acc, 0);
      hide Total;
      SameStakes(acc, Claim(acc, id, beneficiary, now));
    }
  }

  lemma FeesKeep(acc: Account, amount: nat)
    requires Inv(acc)
    ensures Inv(PayFees(acc, amount)) && Inv(FundBlockRewards(acc, amount))
  {
    hide Total;
    SameStakes(acc, PayFees(acc, amount));
    SameStakes(acc, FundBlockRewards(acc, amount));
  }

  // ----- Whole runs -----

  datatype Action =
    | BuyForFees(fees: nat)
    | BuyForStake(key: Key, id: nat, stake: nat)
    | AskBack(key: Key, amount: nat)
    | Fund(amount: nat)
    | EndBlock(order: seq<Address>, collaterals: seq<nat>, totalCollateral: nat, serviceFees: nat)
    | WithdrawRewards(a: Address)
    | ExpireStake(key: Key, id: nat, renewal: Renewal)
    | PayLoss(id: nat, reimbursement: Reimbursement)
    | WithdrawReimbursement(id: nat, beneficiary: Address, now: int)

  /**
    What callers see to: purchase ids are new, a proposal is reimbursed once, an expiry names its own
    pair, and where there are providers there is collateral, or the chain halts.
  */
  ghost predicate Allowed(acc: Account, action: Action) {
    match action
    case BuyForStake(key, id, stake) => id !in acc.owners && stake > 0
    case EndBlock(order, collaterals, totalCollateral, serviceFees) => |order| == |collaterals| && (order != [] ==> totalCollateral > 0)
    case ExpireStake(key, id, renewal) =>
      && (id in acc.originals ==> id in acc.owners && acc.owners[id] == key)
      && (renewal.Renewal? ==> renewal.id !in acc.owners && renewal.amount > 0)
    case PayLoss(id, reimbursement) => id !in acc.reimbursements
    case _ => true
  }

  ghost function Step(acc: Account, action: Action): Account
    requires Allowed(acc, action)
  {
    match action
    case BuyForFees(fees) => PayFees(acc, fees)
    case BuyForStake(key, id, stake) => AddStaking(acc, key, id, stake)
    case AskBack(key, amount) => Unstake(acc, key, amount)
    case Fund(amount) => FundBlockRewards(acc, amount)
    case EndBlock(order, collaterals, totalCollateral, serviceFees) => Distribute(acc, order, collaterals, totalCollateral, serviceFees)
    case WithdrawRewards(a) => Payout(acc, a)
    case ExpireStake(key, id, renewal) => Expire(acc, key, id, renewal)
    case PayLoss(id, reimbursement) => Reimburse(acc, id, reimbursement)
    case WithdrawReimbursement(id, beneficiary, now) => Claim(acc, id, beneficiary, now)
  }

  lemma StepKeeps(acc: Account, action: Action)
    requires Inv(acc) && Allowed(acc, action)
    ensures Inv(Step(acc, action))
  {
    hide Inv;
    match action
    case BuyForFees(fees) => FeesKeep(acc, fees);
    case BuyForStake(key, id, stake) => AddStakingKeeps(acc, key, id, stake);
    case AskBack(key, amount) => UnstakeKeeps(acc, key, amount);
    case Fund(amount) => FeesKeep(acc, amount);
    case EndBlock(order, collaterals, totalCollateral, serviceFees) => DistributeKeeps(acc, order, collaterals, totalCollateral, serviceFees);
    case WithdrawRewards(a) => PayoutKeeps(acc, a);
    case ExpireStake(key, id, renewal) => ExpireKeeps(acc, key, id, renewal);
    case PayLoss(id, reimbursement) => ReimburseKeepsIff(acc, id, reimbursement);
    case WithdrawReimbursement(id, beneficiary, now) => ClaimKeeps(acc, id, beneficiary, now);
  }

  function Empty(): Account {
    Account(0, 0, 0, map[], map[], map[], map[], 0, map[])
  }

  lemma EmptyKeeps()
    ensures Inv(Empty())
  {
    assert forall k :: StakeOk(Empty(), k);
  }

  /** A run from the empty account: each step allowed in the state the one before it led to. */
  ghost predicate IsRun(states: seq<Account>, actions: seq<Action>) {
    && |states| == |actions| + 1
    && states[0] == Empty()
    && forall i :: 0 <= i < |actions| ==> Allowed(states[i], actions[i]) && states[i + 1] == Step(states[i], actions[i])
  }

  /** In every state of every run the coins held are exactly those owed. */
  lemma {:induction false} RunConserves(states: seq<Account>, actions: seq<Action>, i: nat)
    requires IsRun(states, actions) && i < |states|
    ensures Inv(states[i])
  {
    if i == 0 {
      EmptyKeeps();
    } else {
      hide Inv;
      RunConserves(states, actions, i - 1);
      StepKeeps(states[i - 1], actions[i - 1]);
    }
  }
}
