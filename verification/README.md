# Shentu in Dafny

A Dafny 4.11 model of the parts of Shentu (a Cosmos-SDK chain) in which state is hardest to keep
straight, and proofs about it. `dafny verify dfyconfig.toml` checks all of it.

- **Shield** (`x/shield`): providers put up collateral against their stake, purchasers buy shield that
  the collateral covers for a time, claims secure and take collateral, fees and stakes pass through
  the module account.
- **Governance** (`x/gov`): proposals with a deposit period and up to two voting rounds, one by
  certifiers and one by stake; shield claims are proposals, and governance drives them.
- **Oracle** (`x/oracle`): operators with collateral answer tasks, answers are aggregated, and the
  bounty is shared out.
- **CVM** (`vm`): the interpreter loop, jumps, gas and memory of the contract machine.

Each part comes in three layers. Values and functions say what an operation does
(`Collateral`, `Purchases`, `Claims`, `Account`, `Gov`, `Oracle`, `Gas`). Classes with the source's
fields, loops and early returns are proved to do just that (`CollateralKeeper`, `ShieldKeeper`,
`AccountKeeper`, `GovKeeper`, `OracleKeeper`, `GasMemory.Memory`). Run modules put the operations
together and prove what holds in every reachable state (`CollateralRuns`, `Coverage`,
`ClaimCoverageRuns`, `GovRuns`, `Refunds`, `Settling`, `Admission`, `ClaimRuns`, `Account`, `Dues`,
`Oracle`, `Holdings`, `Interpreter`). `Decision`, `Aggregation`, `Semantics` and `Stepping` say what
verdicts, results, charges and instructions mean, without the functions that compute them.

## Model

| member | source | states |
|---|---|---|
| `Coverage.CoverageIff` | x/shield/keeper/purchase.go:88-159 | Over all runs without claims, shield that still protects stays within the collateral exactly if withdrawals take at least as long as protection lasts. |
| `Coverage.RunProtected` | x/shield/keeper/collateral.go:35-69 | From an empty store, whatever is provided, withdrawn, delegated, bought and expired, the shield still protecting is at most the total collateral. |
| `Coverage.RunCovered` | x/shield/keeper/purchase.go:103-119 | At every later time too: the shield ending after it is at most the collateral left once the withdrawals due by then are gone. |
| `Coverage.Outruns` | x/shield/keeper/withdraw.go:101-133 | With a shorter withdrawal period there is a run in which all collateral is gone while the shield it backed still protects. |
| `ClaimCoverageRuns.RunCovered` | x/shield/keeper/purchase.go:103-119 | The same with claims made, rejected, vetoed and paid: as long as anything is protected past a time, the shield that is and all that is claimed are together within the collateral left by then, if withdrawals take at least as long as protection. |
| `ClaimCoverageRuns.RunLocked` | x/shield/keeper/proposal.go:21-92 | If withdrawals also take as long as the lock on a claim, and claims are secured in full, that holds until the lock of any undecided claim ends, whatever is protected. |
| `ClaimCoverageRuns.LockIff` | x/gov/handler.go:130-137 | Over all runs, what is claimed stays within the collateral until the locks end exactly if withdrawals take at least as long as locks. |
| `ClaimCoverageRuns.Abandoned` | x/shield/keeper/collateral.go:35-69 | With quicker withdrawals, a run in which the provider leaves right after a claim and nothing is left to pay it while it is locked. |
| `ClaimCoverageRuns.StepBacked` | x/shield/keeper/proposal.go:21-297 | Every single step keeps both, reimbursements included: they take no more collateral than they take off the claims. |
| `ClaimCoverageRuns.SecureClaim` | x/shield/keeper/proposal.go:21-92 | What the keeper does when it secures a claim is what happens in such a run. |
| `ClaimCoverage.TradesSteady` | x/shield/keeper/purchase.go:88-159 | Buying, expiry, depositing, withdrawing and losing stake: what is sold and claimed grows only by a sale, and then it is within the collateral not being withdrawn; collateral leaves only a withdrawal period later. |
| `ClaimCoverage.SecureFair` | x/shield/keeper/proposal.go:21-92 | Securing a claim leaves shield and claims together what they were. |
| `ClaimCoverage.RestoreFair` | x/shield/keeper/proposal.go:141-170 | So does rejecting one, even if its purchase is gone. |
| `ClaimCoverage.VisitAllFair` | x/shield/keeper/purchase.go:197-262 | Expiry only lowers them. |
| `Reimbursed.MetDue` | x/shield/keeper/proposal.go:300-379 | Paying a loss out of the withdraw queue makes no more fall due by any time. |
| `Split.SharesSum` | x/shield/keeper/proposal.go:57-72 | The truncate-and-bump loop secures the total or, if that is less, all it can ask for: each holder's truncated share, and one unit more if the holder has it. |
| `Split.SharesExactIff` | x/shield/keeper/proposal.go:57-72 | So it secures a covered total exactly if that is within what it can ask for; it asks nobody for more than they hold. |
| `Split.SharesExact` | x/shield/keeper/proposal.go:57-72 | Below twice 10^18 it always is. |
| `Split.LastTakesRestIff` | x/shield/keeper/proposal.go:450-486 | The loop in which the last one takes the rest always comes to the total, and asks nobody for more than they hold exactly if the rest is within what the last one holds. |
| `Split.LastTakesRestExact` | x/shield/keeper/proposal.go:450-486 | Below twice 10^18 it always is. |
| `Split.SharesFallShortPastTheLimit` | x/shield/keeper/proposal.go:57-72 | With a holding of 5 * 10^18 the loop secures 1 of 2. |
| `Split.LastOveraskedPastTheLimit` | x/shield/keeper/proposal.go:450-486 | With holdings of 7 * 10^18 and 1, the last is asked for 2 of 3. |
| `QueuePayout.TakeFromWithdraws` | x/shield/keeper/proposal.go:300-379 | Going through a provider's withdrawals latest first, over the time slices, takes exactly what is reachable past the part that must stay, and leaves all other entries as they were. |
| `QueuePayout.TrimmedMeasures` | x/shield/keeper/proposal.go:330-368 | After that the owner's queued amount and the queue's total are smaller by what was taken, everybody else's is the same. |
| `QueueDelay.DelayWithdraws` | x/shield/keeper/withdraw.go:223-274 | Moves a provider's withdrawals due by the end of a lock, latest first, until enough is held back; entries of others, and the queue's order, stay. |
| `QueueDelay.DelayedHolds` | x/shield/keeper/withdraw.go:223-274 | Before the end of the lock, at most what need not be held back falls due. |
| `QueueDelay.DelayedDue` | x/shield/keeper/withdraw.go:223-274 | By no time does more fall due than before. |
| `QueueDelay.DelayTotal` | x/shield/keeper/withdraw.go:223-274 | Delaying changes no amounts. |
| `Collateral.DepositKeeps` | x/shield/keeper/collateral.go:10-30 | A deposit is refused exactly if the stake does not cover it; else total and provider grow by it; backing and sums hold. |
| `Collateral.WithdrawKeeps` | x/shield/keeper/collateral.go:35-69 | A withdrawal is accepted exactly if that much is not being withdrawn yet, and adds its amount to what is due from its time on, to nothing before. |
| `Collateral.ChangeDelegationsKeeps` | x/shield/keeper/provider.go:49-108 | Losing stake forces a withdrawal of exactly what is no longer backed. |
| `Collateral.DequeueKeeps` | x/shield/keeper/withdraw.go:101-133 | Completing withdrawals takes exactly what is due off the collateral, withdrawing totals and the queue, and leaves what falls due later. |
| `CollateralRuns.RunBacked` | x/shield/keeper/invariants.go:57-79 | In every reachable state, payouts and locks included: collateral not being withdrawn is within the provider's stake, its withdrawals are its queue entries, and the totals are the sums over providers. |
| `CollateralKeeper.Keeper.DepositCollateral` | x/shield/keeper/collateral.go:10-30 | The stored state after a deposit is that of `Deposit`. |
| `CollateralKeeper.Keeper.WithdrawCollateral` | x/shield/keeper/collateral.go:35-69 | The stored state and the answer are those of `Withdraw`. |
| `CollateralKeeper.Keeper.UpdateDelegationAmount` | x/shield/keeper/provider.go:49-68 | Rebooks the provider with the sum of its delegations, withdrawing what is no longer backed. |
| `CollateralKeeper.Keeper.RemoveDelegation` | x/shield/keeper/provider.go:71-88 | Takes one delegation off the provider's stake and withdraws what is no longer backed. |
| `CollateralKeeper.Keeper.DequeueCompletedWithdrawQueue` | x/shield/keeper/withdraw.go:101-133 | The loop over due slices does what completing one withdrawal after another does. |
| `CollateralKeeper.Keeper.ComputeWithdrawAmountByTime` | x/shield/keeper/withdraw.go:138-155 | The amount a provider has due by a time. |
| `CollateralKeeper.Keeper.UpdateProviderCollateralForPayout` | x/shield/keeper/proposal.go:300-379 | Panics exactly if the provider's collateral is below the shield it keeps covering plus the payout; else takes the payout from free collateral first, then from its withdrawals, latest first. |
| `CollateralKeeper.Keeper.UndelegateShares` | x/shield/keeper/proposal.go:535-583 | Takes an amount from one delegation and the provider's stake, and from nothing else. |
| `CollateralKeeper.Keeper.PayFromDelegation` | x/shield/keeper/proposal.go:450-486 | Undelegates the payout from a provider's delegations in proportion, the last giving the rest, where the last holds that much. |
| `Payout.PayFromUnbondings` | x/shield/keeper/proposal.go:422-441 | Takes from unbonding entries, latest first, exactly what is reachable past the part that must stay. |
| `CollateralKeeper.Keeper.MakePayoutByProviderDelegations` | x/shield/keeper/proposal.go:382-447 | Panics exactly if bonded and unbonding stake together are below the shield covered plus the payout; else pays from delegations, then unbondings. |
| `Payout.HaltsOnShortCollateral` | x/shield/keeper/proposal.go:300-379 | What is asked of the withdrawals cannot be met exactly if the collateral is below what must be covered plus paid. |
| `Payout.PayoutKeeps` | x/shield/keeper/proposal.go:300-447 | One provider's payout keeps backing, queue and sums, with the payout owed to the totals. |
| `Payout.StakeStillCovers` | x/shield/keeper/proposal.go:382-447 | If every provider's bonded and unbonding stake covered its collateral before, it does after. |
| `Reimbursement.PaidIffCapacity` | x/shield/keeper/proposal.go:252-283 | The two interleaved splits pay the whole loss exactly if it is within what the providers can be asked for; they never pay more. |
| `Reimbursement.RoomyPaysInFull` | x/shield/keeper/proposal.go:252-283 | If every provider has room for two units of rounding, the loss is paid in full. |
| `Reimbursement.UnsoldPaysInFull` | x/shield/keeper/proposal.go:252-283 | If no other shield is sold, any loss below the collateral is paid in full. |
| `Reimbursement.PayoutFallsShort` | x/shield/keeper/proposal.go:284-286 | Collaterals 3, 3, 3, 3, 12 with shield 12 and loss 12: only 11 can be paid, and the chain panics. |
| `Reimbursement.DemandOutgrowsCollateral` | x/shield/keeper/proposal.go:371-373 | Collateral 10 with shield 90 and loss 10: the loss is within what can be asked for, but the provider would have to keep 90 covered and pay 10, and the chain panics. |
| `Reimbursement.PaidBeyondCover` | x/shield/keeper/proposal.go:252-283 | Collaterals 1 and 1 with shield 1 and loss 2, more than the collateral together: paid in full, nobody asked for too much. |
| `Reimbursed.LossFits` | x/shield/keeper/proposal.go:252-275 | If shield and loss are within a collateral below 10^18, no provider is asked to cover and pay more than its collateral, so the first panic of a payout cannot occur. |
| `Reimbursed.ReimbursedKeeps` | x/shield/keeper/proposal.go:244-297 | Every reimbursement that completes keeps every provider backed and all sums, and the collateral falls by exactly the loss. |
| `Reimbursed.ReimbursedCovers` | x/shield/keeper/proposal.go:244-297 | Where stake covered collateral before, it does after, for everyone. |
| `Reimbursed.CoveringStakesMeet` | x/shield/keeper/proposal.go:382-447 | If everybody's stake covers its collateral and the demands fit that, the second panic of a payout cannot occur either. |
| `CollateralKeeper.Keeper.CreateReimbursement` | x/shield/keeper/proposal.go:244-297 | Done exactly if there is collateral, the loss is within the providers' capacity, and each one asked to pay has the collateral and the stake to pay and still cover its part of the shield; a panic otherwise. |
| `Securing.StakeRunsOut` | x/shield/keeper/proposal.go:118-120 | A provider that withdraws and deposits again on the same stake makes that panic reachable. |
| `Securing.DelayedSecures` | x/shield/keeper/proposal.go:97-130 | After the delay, a provider's secured amount stays until the lock ends. |
| `Securing.TotalHeld` | x/shield/keeper/proposal.go:21-92 | Until the lock ends, the collateral not due for withdrawal covers all that is secured. |
| `CollateralKeeper.Keeper.SecureFromProvider` | x/shield/keeper/proposal.go:97-130 | Succeeds exactly if the provider's stake lasts until the lock ends; then the amount is held back, and withdrawals are only postponed, never of others. |
| `CollateralKeeper.Keeper.SecureFromProviders` | x/shield/keeper/proposal.go:56-72 | The shares add up to the claimed total or to all that can be asked for, each within its provider's collateral; all are held back, or some stake does not last and it stops there. |
| `Purchases.AddKeeps` | x/shield/keeper/purchase.go:121-150 | A purchase keeps the shield of pools, purchases and total in step. |
| `Purchases.SoldIff` | x/shield/keeper/purchase.go:88-159 | Shield is sold exactly if the pool is there and active, something is bought and paid for, and the book is then within all limits: shield and claims together within the collateral not being withdrawn, the pool within its own limit and, in products, within its rate of the collateral not claimed. The book is then the old one with the purchase added, and unchanged otherwise. |
| `Purchases.ClaimedIsNotSold` | x/shield/keeper/purchase.go:110-112 | Ten coins of collateral, six claimed: eight of shield are refused. |
| `Coverage.CreatedSold` | x/shield/keeper/pool.go:153-174 | A pool is created only together with shield of it that is within all limits, or nothing changes. |
| `Purchases.VisitAllKeeps` | x/shield/keeper/purchase.go:197-262 | An expiry keeps the sums, removes nothing that still protects, and leaves nothing removable in the lists it visits. |
| `Expiring.AddMirrors` | x/shield/keeper/purchase.go:374-384 | A purchase keeps the queue in step: each list is queued once for each of its purchases, at its end. |
| `Expiring.RemoveMirrors` | x/shield/keeper/purchase.go:72-85 | Taking a purchase out of its list, and the list out of the queue once, keeps them in step. |
| `Expiring.NothingLeft` | x/shield/keeper/purchase.go:197-262 | So an expiry leaves no purchase behind whose deletion time has passed. |
| `ShieldKeeper.Keeper.DequeuePurchase` | x/shield/keeper/purchase.go:72-85 | Removes the first entry for a list at a time, and the slice once it is empty. |
| `ShieldKeeper.Keeper.WalkList` | x/shield/keeper/purchase.go:204-251 | The loop that deletes from the list it walks keeps exactly the purchases not removable, in order, with pool, total and queue in step. |
| `ShieldKeeper.Keeper.RemoveExpiredPurchases` | x/shield/keeper/purchase.go:181-304 | The whole expiry loop does what visiting the due lists does, keeps all sums and the queue, and leaves nothing overdue. |
| `ShieldKeeper.Keeper.PurchaseShield` | x/shield/keeper/purchase.go:88-159 | Sells as `Buy` does, so exactly as `SoldIff` says, or refuses with the source's error and changes nothing; sums and queue hold. |
| `Claims.SecureKeeps` | x/shield/keeper/proposal.go:21-92 | Securing moves the loss from shield to claimed, within the collateral, and keeps every sum. |
| `Claims.SecureThenRestore` | x/shield/keeper/proposal.go:141-170 | Securing, restoring and ending a claim gives back pool, totals and the purchase's shield; only its deletion time has moved. |
| `Claims.RestoreKeepsIff` | x/shield/keeper/proposal.go:141-170 | Restoring keeps the sums exactly if pool, list and purchase are all there. |
| `Claims.ClosePoolsKeepsIff` | x/shield/keeper/pool.go:266-273 | Closing pools keeps the sums and every purchase's pool exactly if no purchase is in a closable pool. |
| `ShieldKeeper.Keeper.SecureCollaterals` | x/shield/keeper/proposal.go:21-92 | Answers as `Secure` does, or panics exactly if some provider's stake does not last; when done, what was asked of the providers is locked, and that is the claimed total exactly if it can be asked for. |
| `ShieldKeeper.BelowTheLimitCoverable` | x/shield/keeper/proposal.go:56-72 | With collateral below twice 10^18 it always can. |
| `ShieldKeeper.Keeper.RestoreShield` | x/shield/keeper/proposal.go:141-170 | Writes total and pool before it looks for the purchase, and answers whether list and pool were there. |
| `ShieldKeeper.Keeper.ClosePoolsInOrder` | x/shield/keeper/pool.go:266-273 | Deletes exactly the pools with neither shield nor limit. |
| `ShieldKeeper.Keeper.EndBlocker` | x/shield/abci.go:20-29 | Expiry, completed withdrawals and closing in turn; the sums hold afterwards exactly if no purchase was left in a closable pool. |
| `ClaimLimits.RestoreAfterExpiryIff` | x/shield/keeper/proposal.go:74-89 | Secured, then expired at some time, then restored: the sums come back exactly if neither the purchase's own life nor the lock was over by then. |
| `ClaimLimits.RestoredTooLate` | x/gov/endblocker.go:41-47 | One unit bought, claimed and locked until 10, expired at 11 and rejected: the sums fail. |
| `ClaimLimits.RestoredToAnother` | x/gov/endblocker.go:44 | A claim proposed by another than the purchaser and rejected: the sums fail. |
| `ClaimLimits.ClosedUnderPurchase` | x/shield/keeper/pool.go:266-273 | A pool with a negative limit, its only purchase fully claimed, is closed under that purchase. |
| `Market.TradedKeeps` | x/shield/keeper/pool.go:153-273 | Buying, expiry, opening, configuring and closing keep the sums, but for a pool closed under a purchase. |
| `Market.VisitAllHeld` | x/shield/keeper/purchase.go:197-262 | Expiry removes no purchase that is held until later. |
| `ClaimRuns.RunShieldSums` | x/shield/keeper/invariants.go:81-99 | In every state of every run of shield and governance together, claims included, the shield of pools, of purchases and in total agree and every purchase has its pool, given that holders make the claims, no claim outlasts its lock when purchases expire, and no pool is closed under a purchase. |
| `ClaimRuns.RestorableWhenDecided` | x/gov/endblocker.go:41-47 | In such a run the purchase of a claim being voted on is always there to restore, and rejecting the claim keeps the sums. |
| `ClaimRuns.StepSound` | x/gov/endblocker.go:185-200 | Every single step keeps that. |
| `Account.RunConserves` | x/shield/keeper/invariants.go:19-55 | From an empty account, in every reachable state the module's balance is exactly what it owes in fees, rewards, stakes, block rewards and reimbursements. |
| `Account.ModuleAccountInvariant` | x/shield/keeper/invariants.go:19-55 | That is the registered invariant, and the decimal parts it truncates add up to whole coins. |
| `Account.PartsAddUp` | x/shield/keeper/purchase.go:275-303 | The rounded parts of the fees differ from the fees by at most half a unit a provider, plus the rounding of the rates. |
| `Account.ShareOutParts` | x/shield/keeper/purchase.go:284-303 | What is awarded leaves the remaining fees, no more and no less. |
| `Account.RewardedPart` | x/shield/keeper/purchase.go:286-299 | In turn, every provider's own reward grows by its own part of the fees, or by what those before it left if that is less. |
| `Account.PartProRata` | x/shield/keeper/purchase.go:290-291 | A part is that share of the fees which the provider's collateral is of all collateral, but for half a unit and the rounding of the rate. |
| `Account.FeesReachProviders` | x/shield/keeper/purchase.go:275-303 | A block shares out the service fees, as far as they remain, and the block fees: with enough remaining for all parts, each provider's reward grows by its pro-rata part of both, nobody else's, and the block fees are added to what the parts leave. |
| `Account.EqualShares` | x/shield/keeper/purchase.go:286-299 | Two coins among two equal providers: one each. |
| `Dues.FundedIsDue` | x/shield/keeper/staking_purchase.go:95-103 | Coins given for block rewards are due to the providers in full with the next fees. |
| `Dues.PaidWhole` | x/shield/keeper/rewards.go:41-59 | A provider is paid the whole coins of its reward; the fraction goes back to the fees, and nobody else's reward changes. |
| `Dues.RequestsAddUp` | x/shield/keeper/staking_purchase.go:82-93 | Requests for stake are all on record as long as they come to no more than is staked, however many; one that goes beyond changes nothing. |
| `Dues.StepReimbursed` | x/shield/keeper/proposal.go:635-656 | A reimbursement is paid, in full, exactly when its beneficiary withdraws it from its payout time on; no other step touches it. |
| `Dues.RunReimbursed` | x/shield/keeper/proposal.go:635-656 | So in every run it is there as long as the beneficiary waits. |
| `Account.RequestHonouredIff` | x/shield/keeper/staking_purchase.go:156-204 | A request to unstake is honoured at expiry with renewal exactly if it is nothing or for all of the purchase's stake. |
| `Account.RequestDropped` | x/shield/keeper/staking_purchase.go:156-204 | Ten staked, four asked back, renewed: ten are staked and nothing is asked back. |
| `Account.ReimburseKeepsIff` | x/shield/keeper/proposal.go:287-288 | Storing a reimbursement keeps the balance explained exactly if it overwrites none; proposals are decided once, so it does not. |
| `Account.ExpireKeeps` | x/shield/keeper/staking_purchase.go:156-204 | An expiring stake, renewed or not, keeps balance and stakes in step. |
| `AccountKeeper.Keeper.DistributeFees` | x/shield/keeper/purchase.go:275-303 | Panics, dividing by nothing, exactly if there are providers and no collateral; else shares out as `Distribute` does, so each provider gets its own part (`FeesReachProviders`). |
| `CollateralRuns.ProviderWithoutCollateral` | x/shield/keeper/withdraw.go:101-133 | One provider that deposits and withdraws is left, without collateral. |
| `AccountKeeper.Keeper.PayoutNativeRewards` | x/shield/keeper/rewards.go:41-59 | Pays the whole coins of a reward, keeps the fraction, and always can. |
| `AccountKeeper.Keeper.AddStaking` | x/shield/keeper/staking_purchase.go:61-80 | Stakes coins for a purchase; the balance stays explained. |
| `AccountKeeper.Keeper.UnstakeFromShield` | x/shield/keeper/staking_purchase.go:82-93 | Accepted exactly if all requests together are within the stake. |
| `AccountKeeper.Keeper.FundShieldBlockRewards` | x/shield/keeper/staking_purchase.go:95-103 | Adds to the block rewards what it adds to the balance. |
| `AccountKeeper.Keeper.ProcessStakeForShieldExpiration` | x/shield/keeper/staking_purchase.go:156-204 | The stored state is that of `Expire`; the balance stays explained. |
| `AccountKeeper.Keeper.WithdrawReimbursement` | x/shield/keeper/proposal.go:635-656 | Pays exactly to the beneficiary, from the payout time on, and always can. |
| `Tally.TallyVotes` | x/gov/keeper/tally.go:22-82 | The one-pass tally with deductions counts each delegation once, for its delegator's vote or else for its validator's, and never more than is bonded. |
| `Tally.CountDelegations` | x/gov/keeper/tally.go:125-144 | A voting delegator's delegations are counted for its option and deducted from its validators, from no other. |
| `Tally.AtMostBonded` | x/gov/keeper/tally.go:22-82 | The four counts together are at most the bonded tokens. |
| `Tally.BallotsInAnyOrder` | x/gov/keeper/tally.go:31-43 | The order of votes makes no difference. |
| `Decision.MoreYesKeepsPassing` | x/gov/keeper/tally.go:146-178 | More power for Yes never keeps a proposal from passing. |
| `Decision.MoreNoPassesIff` | x/gov/keeper/tally.go:146-178 | If it passes with more power for No, it passed without exactly if the quorum was met and the veto not reached without. |
| `Decision.NoVoteMakesItPass` | x/gov/keeper/tally.go:152-156 | 33 of 100 for Yes fail the quorum; 2 more for No, and it passes. |
| `Decision.VerdictIff` | x/gov/keeper/tally.go:146-212 | A proposal is vetoed exactly if the quorum is met, not all abstain, and the power for the veto is above its fraction of all votes; it passes exactly if the quorum is met, the veto is not, and the power for Yes is above the threshold of what does not abstain: in products of the counts. |
| `Decision.VetoIsNoRejection` | x/gov/keeper/tally.go:164-165 | 20 for Yes and 80 for the veto of 100: vetoed. |
| `Decision.SecurityIff` | x/gov/keeper/tally.go:214-245 | The certifiers pass a proposal exactly if enough of them vote and more than the threshold of those for it. |
| `Polls.DecideByStake` | x/gov/keeper/tally.go:22-82 | The verdict on a proposal is that of its votes, weighed by stake, claims against what certified identities have bonded; when that is a veto, a pass or neither is in `VerdictIff`. |
| `Polls.DecideByHeads` | x/gov/keeper/tally.go:248-281 | The certifier round counts heads. |
| `Polls.CountedAtItsTurn` | x/gov/endblocker.go:185-200 | However many proposals a block decides, the votes counted for each are those at the block's end, undisturbed by the others. |
| `Polls.DecidedByVotes` | x/gov/endblocker.go:49-118 | A proposal whose stake vote ends in a block passes in it exactly if its votes say so. |
| `Settling.VotesSettle` | x/gov/endblocker.go:49-118 | What a block burns is the deposits on just those proposals whose votes veto them when their stake round ends; what it pays back, those on the others that end; and the shield given back is the losses of just those claims that are rejected without a veto. |
| `Settling.StatusByVotes` | x/gov/endblocker.go:80-105 | A proposal whose stake round ends passes exactly if its votes approve it and its handler succeeds, fails exactly if they do and it does not, and is rejected otherwise. |
| `Settling.BlockSettles` | x/gov/endblocker.go:185-200 | The same for any outcomes of the rounds; and the proposals that end so are just those whose time is up. |
| `GovSteps.NextRoundKeeps` | x/gov/keeper/proposal.go:151-176 | Entering the stake round keeps the invariant and leaves no vote of the certifier round. |
| `GovSteps.SubmitKeeps` | x/gov/handler.go:67-137 | A claim is secured and voted on from the start, or refused as a whole; the books hold. |
| `GovSteps.AddDepositKeeps` | x/gov/keeper/deposit.go:39-79 | Deposits add up, the escrow with them, and enough of them move the proposal to the other queue. |
| `GovSteps.FinishKeeps` | x/gov/endblocker.go:73-108 | However a claim ends, taking its loss off the claimed total once keeps the books. |
| `GovRuns.EndBlockKeeps` | x/gov/endblocker.go:185-200 | A block never meets a queued proposal that is not there, keeps the invariant, and touches no finished proposal. |
| `GovRuns.StepKeeps` | x/gov/handler.go:67-128 | Nor does any other step. |
| `GovRuns.RunLedger` | x/gov/endblocker.go:34-47 | In every reachable state the shield module's claimed total is the loss of all claims being voted on, each one taken off exactly once, and the escrow is the sum of all deposits. |
| `GovRuns.RunWins` | x/gov/keeper/tally.go:266-278 | Whatever passed has won the rounds it must: both for upgrades and claims, one of them for certifier updates, stake for the rest. |
| `GovRuns.RunFinished` | x/gov/endblocker.go:105-108 | A finished proposal stays as it is; so no claim is reimbursed twice. |
| `Admission.RunSeated` | x/gov/keeper/deposit.go:39-79 | In every reachable state a proposal is in its deposit period exactly if it is neither the council's nor a claim and its deposits are below the minimum, and that period has the length it should. |
| `Admission.RunBallots` | x/gov/keeper/vote.go:18-65 | In every run each ballot a round has to count was cast in that round, by a certifier in the certifier round, and in the stake round of a claim by a certified identity. |
| `Admission.ClaimTakenIff` | x/gov/handler.go:130-181 | A claim is taken exactly if its purchase is there, still protects and has the shield, all that is claimed is within the collateral, of which there is some, and the stakes last; then its loss moves from shield to claimed. |
| `Admission.ClaimedPurchase` | x/gov/handler.go:130-137 | The claimed purchase has the loss less, and is kept for two voting periods from now. |
| `Refunds.RunRefunds` | x/gov/endblocker.go:49-180 | What is left of the deposits on a finished proposal, for the rest of the run: all of them if it was finished before its voting period was over, nothing otherwise; and only certifier updates are finished early. |
| `Refunds.BlockRefunds` | x/gov/endblocker.go:185-200 | The same for one block, over both of its loops. |
| `Refunds.DepositLeftBehind` | x/gov/endblocker.go:120-180 | A run in which a certifier update passes in the block of its submission, and its deposit stays in the escrow for good. |
| `GovKeeper.Keeper.ActivateVotingPeriod` | x/gov/keeper/proposal.go:151-176 | Moves a proposal to its next round and between the queues. |
| `GovKeeper.Keeper.AddDeposit` | x/gov/keeper/deposit.go:39-92 | Accepted exactly in the deposit period of a proposal not by the council. |
| `GovKeeper.Keeper.ReleaseDeposits` | x/gov/keeper/deposit.go:119-146 | Pays back or burns each deposit once; the escrow always suffices. |
| `GovKeeper.Keeper.SubmitProposal` | x/gov/handler.go:67-137 | Goes through exactly if it is no claim or can be secured. |
| `GovKeeper.Keeper.SecureClaim` | x/gov/handler.go:150-181 | The checks on a claim, then securing it. |
| `GovKeeper.Keeper.AddVote` | x/gov/keeper/vote.go:18-65 | Stores a vote, or changes nothing. |
| `GovKeeper.Keeper.DeleteAllVotes` | x/gov/keeper/vote.go:138-143 | Deletes the votes on one proposal, and no others. |
| `GovKeeper.Keeper.DecideProposal` | x/gov/endblocker.go:49-118 | Decides a proposal, or moves it on to the stake round. |
| `GovKeeper.Keeper.CloseProposal` | x/gov/endblocker.go:73-108 | Burns on a veto and pays back otherwise; a claim is ended, restored and ended, or reimbursed. |
| `GovKeeper.Keeper.ProcessSecurityVote` | x/gov/endblocker.go:120-180 | Ends a certifier round once it has passed. |
| `GovKeeper.Keeper.DeleteProposal` | x/gov/keeper/proposal.go:37-46 | Takes a proposal out of store and queues, and its deposits out of the escrow. |
| `GovKeeper.Keeper.EndBlocker` | x/gov/endblocker.go:185-200 | The three loops over the queues, as each finds them; none panics. |
| `Bounty.AwardsWithin` | x/oracle/keeper/task.go:284-345 | The truncated awards never exceed the bounty, and miss it by less than one unit for each answer with weight. |
| `Bounty.LowestUnpaidIff` | x/oracle/keeper/task.go:218-238 | When a third of the collateral gave the lowest score, an answer that gave it has no weight exactly if the collateral behind that score, which is stored as the result, reaches the threshold for scores; or its own collateral is too small to count. |
| `BountyFate.LowestWinsUnpaid` | x/oracle/keeper/task.go:284-345 | Then nobody who answered below the threshold is paid; all that is paid goes to answers at or above it. |
| `BountyFate.MajorityUnpaid` | x/oracle/keeper/task.go:218-345 | Two thirds of the collateral give the lowest score, one third the highest, and the latter gets the whole bounty. |
| `BountyFate.DistributeExact` | x/oracle/keeper/task.go:284-345 | All awards reach the operators they are for. |
| `BountyFate.DistributedIff` | x/oracle/keeper/task.go:284-345 | A bounty is paid but for less than a unit an answer exactly if some answer has weight, and else not at all. |
| `BountyFate.CloseSurplus` | x/oracle/abci.go:15-50 | What closing a task does not pay of its bounty is owed to nobody. |
| `BountyFate.TaskFate` | x/oracle/keeper/task.go:72-91 | In each step a pending task is replaced, closed or waits on; it is replaced exactly if it is asked for again in its closing block, and then its bounty is owed to nobody. |
| `BountyFate.ReplacementClosed` | x/oracle/keeper/task.go:72-91 | The task that replaced it is closed at the end of the same block, however long it was to wait. |
| `BountyFate.BountyLost` | x/oracle/keeper/task.go:72-91 | A bounty of five, lost that way. |
| `Bounty.ResultIsAverage` | x/oracle/keeper/task.go:193-238 | Unless the lowest score wins, the result is within the range of scores, but for the starting term. |
| `Aggregation.AggregatedIs` | x/oracle/keeper/task.go:193-238 | A task succeeds exactly if there is collateral behind its answers. Times that collateral, its result is then within one collateral of the starting value and the sum of score times collateral over the answers of known operators, on the side of zero; unless a third of the collateral gave the lowest score, when it is that collateral. |
| `Aggregation.ResultWithin` | x/oracle/keeper/task.go:193-238 | With no starting value the result lies within any bounds all known operators' scores lie in. |
| `Aggregation.UnanimousIsResult` | x/oracle/keeper/task.go:193-238 | If they all give one score, not the lowest, it is the result. |
| `Aggregation.OneAnswer` | x/oracle/keeper/task.go:193-238 | Ten coins behind an 80: 80. |
| `Aggregation.WeightIs` | x/oracle/keeper/task.go:284-345 | An answer has weight only if a known operator gave it on the side of the result; times its distance from that end of the scale, the weight is the amplified collateral, but for less than one distance. |
| `Aggregation.NearerWeighsMore` | x/oracle/keeper/task.go:284-345 | So nearer that end and with no less collateral weighs no less. |
| `Aggregation.PaidByWeight` | x/oracle/keeper/task.go:284-345 | Each operator's own rewards grow by that share of the bounty which its answer's weight is of all weights, less than a unit short; those who did not answer get nothing. |
| `Holdings.RunOnce` | x/oracle/keeper/task.go:154-190 | In every run no operator has answered a task twice, so this is what every answer earns. |
| `Holdings.MessageHoldings` | x/oracle/keeper/operator.go:63-186 | A message changes what nobody but its sender has with the oracle: by the collateral it brings, less the rewards it is paid, less a withdrawal stored over; the balance changes by just those coins. |
| `Oracle.RunSolvent` | x/oracle/keeper/pool.go:36-79 | In every reachable state the module's balance covers all collateral, rewards, open bounties and pending withdrawals; and if no task is asked to wait for a negative number of blocks, every open one is listed for a closing block that has not passed. |
| `Oracle.CreateTaskScheduledIff` | x/oracle/keeper/task.go:72-91 | A new task is listed for a block still to come exactly if it is not asked to wait for a negative number of blocks. |
| `Oracle.CloseKeeps` | x/oracle/keeper/task.go:193-345 | Closing a task keeps that, pays a bounty at most once, and leaves a closed task alone. |
| `Oracle.ReduceCollateralKeeps` | x/oracle/keeper/operator.go:134-154 | Reducing collateral leaves what is owed the same, less exactly what a withdrawal due at the same block is overwritten with. |
| `Oracle.WithdrawalOverwritten` | x/oracle/keeper/withdraw.go:60-66 | Reduced by two and by three in one block: three are owed. |
| `Maturity.PaidEarlyIff` | x/oracle/types/keys.go:35-39 | A withdrawal is mature when it is due, and before that exactly if its little-endian bytes come no later than those of some block in between; with a lock of up to 256 blocks, if it is due among the first `lock` - 1 blocks from a multiple of 256 on. |
| `Maturity.PaidAtOnce` | x/oracle/keeper/withdraw.go:41-57 | Locked for 30 blocks at block 240, paid at block 241. |
| `Oracle.FinishBlockPays` | x/oracle/keeper/pool.go:68-79 | Between two blocks exactly the withdrawals mature by the second are paid. |
| `Oracle.RunOnTime` | x/oracle/keeper/pool.go:68-79 | With any lock at all, no withdrawal is ever paid late. |
| `OracleKeeper.Keeper.FinalizeMatureWithdraws` | x/oracle/keeper/pool.go:68-79 | Pays exactly the mature withdrawals; no transfer fails. |
| `Oracle.PayAllKeeps` | x/oracle/keeper/pool.go:68-79 | Paying mature withdrawals never fails. |
| `OracleKeeper.Keeper.NewOperator` | x/oracle/keeper/operator.go:63-79 | Takes an operator's collateral; the balance covers what is owed. |
| `OracleKeeper.Keeper.DeleteOperator` | x/oracle/keeper/operator.go:82-101 | Pays the rewards, schedules the collateral, removes the operator. |
| `OracleKeeper.Keeper.IncreaseCollateral` | x/oracle/keeper/operator.go:114-131 | Adds collateral to operator and balance. |
| `OracleKeeper.Keeper.DecreaseCollateral` | x/oracle/keeper/operator.go:134-154 | Schedules a withdrawal, within what the operator may reduce. |
| `OracleKeeper.Keeper.WithdrawAllReward` | x/oracle/keeper/operator.go:171-186 | Pays all rewards, and always can. |
| `OracleKeeper.Keeper.NewTask` | x/oracle/keeper/task.go:72-91 | Takes the bounty and queues the task at its closing block. |
| `OracleKeeper.Keeper.IsValidResponse` | x/oracle/keeper/task.go:154-167 | Valid exactly if in time, within range, and the operator's first. |
| `OracleKeeper.Keeper.RespondToTask` | x/oracle/keeper/task.go:170-190 | Adds an answer exactly if that is so and there are task and operator. |
| `OracleKeeper.Keeper.Aggregate` | x/oracle/keeper/task.go:193-238 | Aggregates a pending task once, to the result `AggregatedIs` describes. |
| `OracleKeeper.TotalValidTaskCollateral` | x/oracle/keeper/task.go:241-280 | The total weight of all answers. |
| `OracleKeeper.Keeper.DistributeBounty` | x/oracle/keeper/task.go:284-345 | Credits each answer its award, although rewards change while the loop runs. |
| `OracleKeeper.Keeper.EndBlocker` | x/oracle/abci.go:15-50 | Pays withdrawals and closes tasks due; the balance still covers what is owed. |
| `Jumps.IsInsidePushData` | vm/contract.go:877-890 | True exactly of the positions within the code where no instruction starts. |
| `Jumps.Jump` | vm/contract.go:865-874 | Goes through exactly to the valid destinations of the Yellow Paper, section 9.4.3. |
| `Jumps.DestinationsAre` | vm/contract.go:865-890 | Those are the instructions, not push data, that are JUMPDEST. |
| `Word64.SafeAdd` | vm/utils.go:32-34 | Reports overflow exactly when there is one. |
| `Word64.SafeMul` | vm/utils.go:38-43 | The same for products, although it divides to find out. |
| `Word64.ToWordSize` | vm/utils.go:52-57 | The fewest words that hold so many bytes, without overflow. |
| `GasMemory.NothingOverflows` | vm/gas.go:87-99 | Within the limit, the 64-bit fee is the quadratic cost. |
| `GasMemory.Memory.MemGasCost` | vm/gas.go:77-104 | Charges the difference between the cost of the new and of the old words; it never underflows. |
| `GasMemory.Memory.Grow` | vm/contract.go:951-957 | Grows within the capacity, and then exactly the memory there is has been paid; the bytes to write are set aside before the capacity is looked at. |
| `GasMemory.UnchargedIff` | vm/contract.go:943-957 | They are set aside without a charge exactly beyond the largest size whose fee is worked out. |
| `Gas.UnchargedStore` | vm/contract.go:928-959 | A store at 2^37 is charged 3. |
| `GasMemory.Memory.TouchAll` | vm/gas.go:77-104 | Whatever sizes memory is touched up to, in any order, the fees come to the cost of the largest. |
| `Gas.RangeEnd` | vm/memory.go:35-61 | The end of an operand range, and whether it overflows 64 bits, found by comparing wrapped sums. |
| `Gas.GasLookUp` | vm/contract.go:928-959 | The charge, memory growth and errors of an instruction, with operands read off the stack as the source reads them. |
| `Gas.ChargeBounds` | vm/op_table.go:45-497 | Every charge covers its fixed part and all growth of memory, and fits 64 bits; only two instructions after which a frame goes on can be free, and not on an empty stack. |
| `Gas.DynamicGasBounds` | vm/gas.go:107-290 | The varying part of the charge covers the memory fee and cannot wrap around. |
| `Semantics.TouchedIsCharged` | vm/contract.go:338-814 | Every byte of memory an instruction reads or writes, by the operands it pops, lies in memory it was charged for; and memory grows no further than the word of the last of them. |
| `Semantics.ChargeIs` | vm/gas.go:77-290 | A charge without an error is the fixed price, the price of the operands in unbounded arithmetic, and the cost of the words grown by. |
| `Semantics.ByteLengthIs` | vm/gas.go:206-214 | An exponent is charged for as many bytes as it has digits in base 256. |
| `Semantics.ChargeReads` | vm/contract.go:928-959 | Working out a charge without an error leaves the stack as it was. |
| `Semantics.PushedBytes` | vm/contract.go:575-581 | The data of a push are read with the first byte highest, and zeros past the end of the code. |
| `Interpreter.CallLimit` | vm/contract.go:720-726 | A callee asking for more than is left gets all but a sixty-fourth; see `CallGoes` for one that asks for less. |
| `Interpreter.JumpOrNot` | vm/contract.go:541-554 | A jump goes on exactly at a valid destination; a conditional one that is not taken needs a target in range all the same. |
| `Interpreter.SpawnLess` | vm/contract.go:608-814 | Every frame started has less gas than the starting frame had at first, so nesting ends. |
| `Interpreter.AfterMoves` | vm/contract.go:541-814 | An instruction passes control on only to the next one or to a valid destination, and gives back no gas it did not have. |
| `Interpreter.Step` | vm/contract.go:68-85 | One turn of the loop: it takes gas or moves on in the code, or ends the frame; what each kind of instruction leaves behind is in `Stepping`. |
| `Interpreter.Run` | vm/contract.go:40-863 | Every program ends, with at most the gas it started with. |
| `Interpreter.TraceKeeps` | vm/contract.go:68-85 | In every run, every position is an instruction or past the end, and what was spent covers all fixed charges and all memory there is, together. |
| `Interpreter.TraceShort` | vm/contract.go:68-85 | Every run has at most gas times (length of code + 1) instructions, and one pass more. |
| `Interpreter.EndKeeps` | vm/contract.go:816-858 | A run that ends without an error ends at STOP, RETURN or SELFDESTRUCT, with its memory paid for. |
| `Interpreter.Perform` | vm/contract.go:541-814 | Carries out an instruction that was paid for, nested frames and all, as `Step` does, so as the lemmas of `Stepping` say. |
| `Stepping.CallGoes` | vm/contract.go:663-814 | A call that is paid for and not refused hands on what it asks for if there is as much, and else all but a sixty-fourth; the caller goes on at the next instruction with what it kept and what the callee left, and with a one in place of the operands exactly if the callee ended without an error. Only results that cannot be kept end the caller too. |
| `Stepping.CallFails` | vm/contract.go:663-814 | In all other cases a call ends its frame with an error. |
| `Stepping.CreateGoes` | vm/contract.go:608-661 | A creation runs the code of the new account on all the gas, and goes on with what that leaves and the address in place of the operands, or zero if the code failed. |
| `Stepping.CreateFails` | vm/contract.go:608-661 | In all other cases a creation ends its frame with an error. |
| `Stepping.JumpGoes` | vm/contract.go:541-545 | A jump goes to the top of the stack exactly if that is a valid destination, and else ends the frame. |
| `Stepping.JumpIfGoes` | vm/contract.go:546-554 | A conditional jump goes there if the second operand is not zero, and else on. |
| `Stepping.PushGoes` | vm/contract.go:575-581 | A push goes on behind its data with the number they spell on the stack. |
| `Stepping.PlainGoes` | vm/contract.go:68-85 | Any other instruction goes on at the next one with its gas taken, or ends the frame. |
| `Stepping.UnpaidFails` | vm/contract.go:68-85 | One that cannot be paid for ends the frame with an error, and the gas it could not take is left. |
| `Stepping.HaltsIff` | vm/contract.go:816-858 | A frame ends without an error exactly at STOP, RETURN or a SELFDESTRUCT that is not refused, when that is paid for. |
| `Interpreter.Execute` | vm/contract.go:40-863 | Returns the frames it went through: a run from the first one, each a step from the one before, that stops only where the last cannot be paid, halts or errs. |

## Findings

Properties that the code does not have. In brackets: a lemma with an input, and the member that says exactly when the property holds.

- A loss within the collateral is not always paid: the payout loop can end short and panic
  (`PayoutFallsShort`; `PaidIffCapacity`).
- With more shield than collateral, a payout can also panic because a provider is asked to pay and keep more
  covered than it has (`DemandOutgrowsCollateral`; `CreateReimbursement`).
- Splits by rounded ratios can fall short of the total, or ask the last holder for more than it holds
  (`SharesFallShortPastTheLimit`, `LastOveraskedPastTheLimit`; `SharesExactIff`, `LastTakesRestIff`).
- Shield outlives its collateral if withdrawals are quicker than protection (`Outruns`; `CoverageIff`).
- Collateral can leave while it is locked for a claim: only withdrawals there are when the claim is made are held
  back, so one asked for later completes before the lock ends if withdrawals are quicker than locks
  (`Abandoned`; `LockIff`).
- Rejecting a claim can give its shield back to a purchase that is gone, because purchases expire in the
  shield module before governance decides in the same block (`RestoredTooLate`; `RestoreAfterExpiryIff`).
- A claim is secured on the purchase of the claimant it names, but given back to that of its proposer
  (`RestoredToAnother`; `RestoreKeepsIff`).
- A pool can be closed under a fully claimed purchase, whose expiry then panics
  (`ClosedUnderPurchase`; `ClosePoolsKeepsIff`).
- Securing a claim can panic for want of stake, because stake backs both collateral being withdrawn and
  collateral put up again (`StakeRunsOut`; `SecureFromProvider`).
- A request to unstake part of a purchase's stake is dropped when the purchase is renewed
  (`RequestDropped`; `RequestHonouredIff`).
- Distributing fees panics if there are providers but no collateral
  (`ProviderWithoutCollateral`; `DistributeFees`).
- A certifier update that the certifiers pass early is finished without paying back its deposits
  (`DepositLeftBehind`; `RunRefunds`).
- A vote for No can make a proposal pass (`NoVoteMakesItPass`; `MoreNoPassesIff`).
- Two withdrawals of one operator due at the same block are one: the later overwrites the earlier
  (`WithdrawalOverwritten`; `ReduceCollateralKeeps`).
- A withdrawal can be paid before its lock is over (`PaidAtOnce`; `PaidEarlyIff`).
- Answers that give the lowest score are paid nothing when it wins with enough collateral
  (`MajorityUnpaid`; `LowestUnpaidIff`).
- A bounty is lost when its task is asked for again in its closing block (`BountyLost`; `TaskFate`).
- Memory can be set aside without a charge (`UnchargedStore`; `UnchargedIff`).

## Left out

- Amounts are in one denomination, the bond denomination; other coins, foreign fees and exchange of tokens are not modelled.
- Split.SharesExact: `SPLIT_LIMIT`, twice 10^18 less 3, is sufficient, not necessary; the exact condition is in `SharesExactIff`.
- Split.LastTakesRestExact: the same limit; the exact condition is in `LastTakesRestIff`.
- Reimbursement.RoomyPaysInFull: sufficient, not necessary; the exact condition is the capacity in `PaidIffCapacity`.
- Reimbursed.LossFits: sufficient, not necessary; the exact condition is that of `CreateReimbursement`.
- CollateralKeeper.Keeper.CreateReimbursement: every part of a provider's stake must be splittable over its delegations, as it is below twice 10^18 (`BelowTheLimitSplittable`); else the source would leave the last delegation negative, which is not modelled.
- CollateralKeeper.Keeper.PayFromDelegation: the last delegation must hold its rest, for the same reason.
- CollateralKeeper.Keeper.MakePayoutByProviderDelegations: the same.
- CollateralKeeper.Keeper.UndelegateShares: a share is a token; exchange rates, jailing and vesting are not modelled.
- CollateralKeeper.Keeper.SecureFromProvider: decides whether the stake lasts and delays withdrawals; delaying unbonding entries in the staking module (withdraw.go, lines 276-340) is not modelled.
- Payout.PayFromUnbondings: the unbonding queue of the staking module, which is rewritten along with the entries (proposal.go, lines 489-532), is not modelled.
- Tally.TallyVotes: decimals are exact, where the source rounds to 18 places.
- Coverage.CoverageIff: runs without claims; with claims see `ClaimCoverageRuns.RunCovered`.
- ClaimCoverageRuns.RunCovered: claims are made and decided at any time and in any way; that votes decide them is in `GovRuns` and `Settling`. A block does not end while a purchase's pool is gone, as its expiry panics.
- ClaimCoverageRuns.RunLocked: every claim is taken to be secured in full, as it is with collateral below twice 10^18 (`BelowTheLimitCoverable`).
- ClaimRuns.RunShieldSums: the three conditions are sufficient, not necessary; what is necessary at a single step is in `RestoreKeepsIff`, `RestoreAfterExpiryIff` and `ClosePoolsKeepsIff`. What providers' collateral does during a claim is in `CollateralRuns` and `ClaimCoverageRuns`.
- GovKeeper.Keeper.SecureClaim: the collateral total and whether stakes last are inputs.
- GovRuns.RunLedger: total collateral and whether stakes last are inputs of a submission, and a claim that passes is taken to be reimbursed; that its reimbursement panics instead, and the chain halts, is in `CreateReimbursement`.
- GovKeeper.Keeper.SubmitProposal: minimum deposits, aliases and upgrade plans are not checked.
- GovRuns.StepKeeps: an expiry is taken to find the pools of all purchases; `RunShieldSums` shows when it does.
- ShieldKeeper.Keeper.RemoveExpiredPurchases: fees of expired purchases are an input of `DistributeFees`; the early return when the last update time is not set is not modelled.
- ShieldKeeper.Keeper.PurchaseShield: whether fees or stake are paid for it, and enough, is an input.
- AccountKeeper.Keeper.ProcessStakeForShieldExpiration: whether the renewal succeeds is an input.
- AccountKeeper.Keeper.AddStaking: purchase identifiers are new, as the counter gives them.
- AccountKeeper.Keeper.DistributeFees: the fees to share out are an input.
- Oracle.RunSolvent: a task is known by one number, where the source joins contract and function into one key.
- Gas.GasLookUp: opcode numbers are those in the source's comments, and what storage and accounts say is an input.
- Interpreter.Execute: instructions are taken not to grow memory beyond what was charged for, as on ranges of length zero.
- Account.FeesReachProviders: enough remains for all parts; without that, what each provider gets is in `RewardedPart`.
- Semantics.ChargeIs: the fixed prices, and those of a store, are tables.
- Interpreter.Step: what instructions compute (256-bit arithmetic, storage, logs, accounts), native contracts and refunds are inputs, one `Outside` for each step.
- Admin rights, genesis import and export, queries, clients, simulations, certificates, and the other modules.
- Iteration orders of stores are inputs where they matter, and no order is assumed of maps.
