# Prism staking and governance: a verified model

This project models the accounting of five CosmWasm contracts of the Prism protocol and proves
what their users rely on. Most theorems are about every state of every run; where a promise holds
under a condition only, the condition is stated, and with it what happens when it fails.

* **Vault** (`prism-vault`): coins are bonded for cLuna; unbond requests collect in batches, a
  batch is undelegated at an exchange rate, and finished batches are released by two loops that
  spread slashing or surplus over them.
* **Launch pool** (`prism-launch-pool`): bonded yLuna earns PRISM from a base pool and a boost
  pool that share one emission schedule; withdrawn rewards vest before they are claimed.
* **LP staking** (`prism-lp-staking`): LP tokens earn PRISM from schedules shared by weighted
  pools, and leave through unbond orders.
* **Governance** (`prism-gov`): one xPRISM balance backs votes, poll deposits and redemptions;
  polls form a status machine; xPRISM is minted and redeemed at a rate.
* **yAsset staking** (`prism-yasset-staking`): staked yLuna earns whatever whitelisted assets are
  deposited.

## How it is built

Each contract has three kinds of files. `...Model.dfy` says what every call does to the stored
values: a call returns the new storage or an error. `...Contract.dfy` is the contract in place, a
class whose fields are the storage items and whose methods run the source's assignments and loops;
every method is proved to do exactly what the model says, and to leave the storage unchanged when
it fails, as an aborted transaction does. The other files prove properties of the model, ending in
a `World` (storage, ghost token balances and the history of a run), its `Step` and `Run`, and
theorems over all runs.

`RewardIndex.dfy` is the one law behind every reward index. "Credits never exceed emission" is
false, because every change of a weight can inject a fraction of one unit. The true law counts, in
units of 10^-18, what a stake may still be credited; settling turns that potential into credits
exactly, and a change of weight adds less than one unit. Both launch pools, all LP pools and all
yAsset rewards are proved through it.

A `Decimal` is a natural number scaled by 10^18, and every product and quotient is rounded down
where the contracts round it down. Storage ranges are read in ascending order of addresses or times
(`Sums.dfy`). Token messages become ghost balance changes in the same step; donations, slashing and
late arrivals are steps of their own.

Amounts are pinned from both sides. A bound from above alone would hold of a contract that pays
nothing, so every quotient the contracts round down is also bounded from below, in terms of the
inputs: what a mint, a redemption, a bond or a request is worth (`GovRuns.MintStep`,
`VaultPricing`), how fast a schedule is emitted (`LaunchPoolEmission.EmissionPace`), what a pool
receives of it (`LpStakingBudget.EntryRewardBelow`, `LpStakingDelivery`), and how much a claim or a
withdrawal pays (`VaultPayouts`, `LpStakingClaims`). Over runs this becomes settlement and delivery:
coins paid by the vault are exactly the debt settled, and no settled second of an LP schedule is
lost. Days and page limits are stated as numbers: 86400 seconds, and fewer than fifty (or thirty)
earlier entries.

Methods without loops that only evaluate a formula of the model (as the ones that store a snapshot
or compute a settlement) are proved equal to it too, and have no row of their own below.

## Side conditions

Some promises hold only under conditions that can be checked before a call. They are as follows:

* **Vault releases.** A release hands out no more than arrived exactly when it fits: nothing
  was slashed, or the rounded shares of the slashing plus one unit per batch make up for what was
  slashed plus two units for each negative difference (`VaultAllocation.AllocationFitsIff`). All
  releases with a positive arrival and positive batches fit, unless the number of batches times the
  difference is beyond 10^18 (`VaultAllocation.ModestFits`). Solvency is proved for runs whose
  releases fit; `VaultSolvency.UnfairReleaseFallsShort` is a run from instantiation where one does
  not and a withdrawal is refused.
* **Launch pool ratios.** Weights, vesting books and the bound on emission need no condition. That
  updates keep working does: the guard at line 683 of `prism-launch-pool/src/contract.rs` skips the
  reset after the schedule's end, and updates keep working exactly when every ratio set from then on
  takes from neither pool (`LaunchPoolTiming.UpdatesWorkIff`). Vesting needs a clock that does not
  run backwards.
* **LP pool weights.** For the emission budget only: a weight is lowered only if no weighted pool is
  settled after it. The comment at line 133 of `prism-lp-staking/src/handle.rs` says a new weight
  applies from that instant only, but the loop settles later pools against the total weight it has
  already changed. From every sound world any other change can be made to overspend, as long as
  weights are modest (`LpStakingLowering.UnsafeOverspends`).
* **PRISM as an LP staking token.** Custody needs no other condition: it lasts exactly as long as no
  claim pays out staked PRISM (`LpStakingHolding.CustodyLastsIff`), which is so when PRISM is never
  registered. `LpStakingResults.PrismStakedBreaksCustody` is a run from instantiation where it is.
* **The xPRISM rate** holds exactly when it was at most one to one, or nothing is minted while gov
  has neither PRISM nor xPRISM in effect (`GovRuns.RateHoldsIff`).
* **Removed yAsset rewards.** A removal from the whitelist does no harm by itself. Gains that nobody
  deposited arise exactly when the holder of a record that is behind the index raises the stake
  while the asset is off the list (`YassetRuns.GainsIff`); every such raise that is large enough
  breaks the bound once the asset is back (`YassetRemovals.StaleRaiseOvercredits`).

## Model

| member | source | states |
|---|---|---|
| SignedIntegers.FromSubtraction | packages/signed_integers/src/signed_integer.rs:13-24 | magnitude and sign together are the exact difference; zero is never negative |
| VaultAllocation.AllocationBound | contracts/prism-vault/src/unbond.rs:241-300 | for n positive batches, a positive arrival A and n times the difference at most 10^18, a release that succeeds allocates between A - 2n and A in total, and the absolute value is never taken of a negative number |
| VaultAllocation.UnderflowIff | contracts/prism-vault/src/unbond.rs:265-288 | the value of a batch is taken of a negative difference exactly when something was slashed and the batch is worth nothing, or nothing arrived at all and its weight is exact |
| VaultAllocation.SumActualExact | contracts/prism-vault/src/unbond.rs:241-300 | the exact sum of what the batches are handed: the total with or without the rounded shares, one unit less for each batch, and two more for each negative difference |
| VaultAllocation.AllocationFitsIff | contracts/prism-vault/src/unbond.rs:241-300 | a release that succeeds hands out no more than arrived exactly when nothing was slashed, or the rounded shares plus one unit per batch make up for what was slashed plus two units per negative difference |
| VaultAllocation.ModestFits | contracts/prism-vault/src/unbond.rs:241-300 | every release of positive batches with an arrival meets that condition, unless n times the difference is beyond 10^18 |
| VaultAllocation.SurplusSucceedsIff | contracts/prism-vault/src/unbond.rs:269-280 | a release fails inside the allocation exactly when there is a surplus whose share rounds to zero for some batch |
| VaultAllocation.SharesNearTotal | contracts/prism-vault/src/unbond.rs:269-273 | rounding the shares down loses at most one unit per batch, as long as n times the difference is at most 10^18 |
| VaultAllocation.NothingArrivedOverpays | contracts/prism-vault/src/unbond.rs:241-300 | without an arrival the bound fails: a single batch is released at one unit |
| VaultAllocation.HugeSlashOverpays | contracts/prism-vault/src/unbond.rs:241-300 | beyond the magnitude condition the bound fails: more is allocated than arrived |
| VaultAllocation.SmallSurplusBlocks | contracts/prism-vault/src/unbond.rs:269-280 | a surplus of one unit over two batches makes the release fail |
| VaultLifecycle.JoinKeeps | contracts/prism-vault/src/unbond.rs:23-58 | a request joins the open batch: the books stay right and nothing owed changes |
| VaultLifecycle.CloseKeeps | contracts/prism-vault/src/unbond.rs:69-112 | closing a batch opens the next one, records the history at a later time, and owes nothing new |
| VaultLifecycle.UnbondKeeps | contracts/prism-vault/src/unbond.rs:17-137 | a whole unbond keeps lifecycle, books and what is owed |
| VaultLifecycle.ReleaseBatchesFrame | contracts/prism-vault/src/unbond.rs:241-301 | the second release loop rewrites exactly the batches the first one counted, only their rate and flag, and none of them twice |
| VaultLifecycle.ReleaseKeeps | contracts/prism-vault/src/unbond.rs:199-307 | a release moves the end of the released prefix and keeps the books |
| VaultLifecycle.WithdrawKeeps | contracts/prism-vault/src/unbond.rs:139-195 | a withdrawal keeps lifecycle and books and only takes entries off the wait list |
| VaultLifecycle.PaidEntriesLeave | contracts/prism-vault/src/unbond.rs:139-197 | exactly the caller's entries of released batches among the first thirty leave the wait list |
| VaultPayouts.WithdrawTakes | contracts/prism-vault/src/unbond.rs:139-197 | an entry of the caller leaves the wait list exactly when its batch is released and the caller waits in fewer than thirty earlier batches |
| VaultPayouts.WithdrawPaysDebt | contracts/prism-vault/src/unbond.rs:139-195 | a withdrawal pays exactly what leaves the debt, the sum of floor(v * withdraw_rate) over the entries it takes off, each of the caller and released; it remembers the coins that remain |
| VaultPayouts.ReleasesExactlyMature | contracts/prism-vault/src/unbond.rs:205-239 | a withdrawal releases exactly the batches whose unbonding period is over, none early and none late, and changes no other |
| VaultPayouts.ReleaseHandsOut | contracts/prism-vault/src/unbond.rs:199-307 | every released batch gets its part of the allocation as a rate, rounded down once; the debt grows by at most the allocation and by no less than it after one unit per holder and 10^-18 of each batch |
| VaultPayouts.RunSettles | contracts/prism-vault/src/unbond.rs:139-307 | over every run the debt is what releases added less what was paid, and the coins are what arrived less what was paid: every coin that leaves settles a claim |
| VaultPayouts.PaidIsReleased | contracts/prism-vault/src/unbond.rs:139-307 | from instantiation: all that was ever paid is all that was ever released less what is still owed |
| VaultPricing.SlashingAdopts | contracts/prism-vault/src/contract.rs:318-348 | slashing adopts the sum of the delegations in the vault's coin exactly when it is the smaller one, with the rate that goes with it, rounded down once |
| VaultPricing.BondPrices | contracts/prism-vault/src/bond.rs:63-149 | a bond mints the payment over the rate cut to nine places, rounded down once, less below the threshold the smaller of the percentage and what is missing; the new rate is that of the new sums |
| VaultPricing.JoinPrices | contracts/prism-vault/src/unbond.rs:30-58 | a request joins the batch with its amount, less below the threshold the smaller of the percentage and what is missing; batch, entry and rate follow, and nothing else |
| VaultPricing.CloseRecords | contracts/prism-vault/src/unbond.rs:69-112 | closing a batch undelegates its requests at the rate, rounded down once; that leaves the bonded coins and is what the release will count; the record holds requests, time and rate |
| VaultPricing.EpochCloses | contracts/prism-vault/src/unbond.rs:17-137 | an unbond burns the whole amount and closes the batch exactly when the last one was closed more than an epoch ago |
| VaultEpochs.EpochsApart | contracts/prism-vault/src/unbond.rs:60-112 | over every run each batch is closed more than an epoch after the one before it, and the first more than an epoch after the start |
| VaultModel.ReleaseRound | contracts/prism-vault/src/unbond.rs:241-301 | one round of the release loop, and why both loops stop at the same batch |
| VaultSolvency.WithdrawSolvent | contracts/prism-vault/src/unbond.rs:139-195 | a fair withdrawal is never refused for lack of coins and leaves released claims covered by the remembered balance |
| VaultSolvency.StepKeeps | contracts/prism-vault/src/unbond.rs:17-307 | every transaction with a fair release keeps lifecycle, books and solvency |
| VaultSolvency.VaultAlwaysPays | contracts/prism-vault/src/unbond.rs:139-307 | in every reachable state of runs whose releases fit what arrived, the sum of floor(v * withdraw_rate) over released entries is at most prev_vault_balance, that is at most the coins held, and the subtraction at line 175 cannot fail |
| VaultSolvency.LifecycleOverRuns | contracts/prism-vault/src/unbond.rs:44-118 | in every reachable state histories exist exactly for the closed batches with strictly increasing times, the released ones are a prefix, and the wait list adds up to the open batch, to unreleased ones exactly, and to at most each released one |
| VaultSolvency.PaidAtMostOnce | contracts/prism-vault/src/state.rs:168-177 | once an entry of a closed batch is gone no run brings it back, so it is paid at most once |
| VaultSolvency.UnfairReleaseFallsShort | contracts/prism-vault/src/unbond.rs:241-300 | the condition is needed: in a run from instantiation, a batch of two units is closed and released before anything has arrived, and the withdrawal is refused for lack of coins |
| VaultBacking.DecimalDivisionExact | contracts/prism-vault/src/math.rs:6-9 | the division cuts the divisor to nine places and is exact from there |
| VaultBacking.BondSucceedsIff | contracts/prism-vault/src/bond.rs:63-149 | for a backed vault a bond succeeds exactly when something is paid and the rate is at least 10^-9 |
| VaultBacking.BondKeepsBacked | contracts/prism-vault/src/bond.rs:63-149 | every bond keeps total bond within supply plus requests (plus the excess of earlier epochs) |
| VaultBacking.SlashingKeepsBacked | contracts/prism-vault/src/contract.rs:318-348 | slashing only lowers the total bond and keeps the backing |
| VaultBacking.JoinKeepsBacked | contracts/prism-vault/src/unbond.rs:30-58 | the fee stage of every unbond keeps the backing |
| VaultBacking.UndelegationBounds | contracts/prism-vault/src/unbond.rs:69-71 | what an epoch undelegates is at most the total bond and its exact share, and short of that share by less than two units when at most 10^18 is requested |
| VaultBacking.UndelegateFair | contracts/prism-vault/src/unbond.rs:69-112 | an epoch never lowers the rate of those who stay, and overshoots the backing by at most one unit |
| VaultBacking.OvershootHappens | contracts/prism-vault/src/unbond.rs:69-112 | the one unit of overshoot is real |
| VaultBacking.BackedOverRuns | contracts/prism-vault/src/bond.rs:63-149 | backing over every run from instantiation, where as many tokens are minted as coins are bonded, with parameter changes: total bond is at most supply plus requests plus one per closed epoch, while holdings are sizable |
| VaultUndelegation.UndelegationSplit | contracts/prism-vault/src/unbond.rs:309-352 | for all draws the split succeeds exactly when the delegations cover the claim; then its messages add up to it, each takes a positive part of one delegation, none twice |
| VaultUndelegation.EpochNeverStuck | contracts/prism-vault/src/unbond.rs:60-112 | an epoch is never stopped for lack of delegations or bonded coins; once the request has joined the batch, all that can stop it is a share of exactly one unit |
| VaultContract.PickUnbondValidator | contracts/prism-vault/src/unbond.rs:309-352 | the removal loop returns the split of the specification, for every sequence of draws |
| VaultContract.Vault.Slashing | contracts/prism-vault/src/contract.rs:318-348 | the summing loop adopts a smaller bonded amount and the new rate |
| VaultContract.Vault.ExecuteBond | contracts/prism-vault/src/bond.rs:63-149 | new state and minted amount, or the error with storage unchanged |
| VaultContract.Vault.ExecuteUnbond | contracts/prism-vault/src/unbond.rs:17-137 | new storage, undelegations and amount joined, or the error with storage unchanged |
| VaultContract.Vault.CountFinished | contracts/prism-vault/src/unbond.rs:215-239 | the first loop: total and end of the finished batches |
| VaultContract.Vault.ReleaseFinished | contracts/prism-vault/src/unbond.rs:241-301 | the second loop: every finished history rewritten, or none |
| VaultContract.Vault.ProcessWithdrawRate | contracts/prism-vault/src/unbond.rs:199-307 | new histories, last processed batch and balance bookkeeping |
| VaultContract.Vault.GetFinishedAmount | contracts/prism-vault/src/state.rs:253-280 | the fold over the first thirty entries |
| VaultContract.Vault.GetUnbondBatches | contracts/prism-vault/src/state.rs:219-247 | the released ones of the same entries, in order |
| VaultContract.Vault.RemoveUnbondWaitList | contracts/prism-vault/src/state.rs:168-177 | exactly those entries are removed |
| VaultContract.Vault.ExecuteWithdrawUnbonded | contracts/prism-vault/src/unbond.rs:139-195 | amount sent and new storage, or the error with storage unchanged |
| RewardIndex.SettleExact | contracts/prism-launch-pool/src/contract.rs:447-477 | settling turns potential into credits exactly: 10^18 times the credit plus the new potential is the old potential |
| RewardIndex.DistributeConserves | contracts/prism-launch-pool/src/contract.rs:494-507 | an index update hands out at most what arrived, the rest stays with the rounding |
| RewardIndex.TouchConservesWithin | contracts/prism-launch-pool/src/contract.rs:447-476 | a settlement with a change of weight adds less than one unit to the law |
| RewardIndex.CreditsBounded | contracts/prism-lp-staking/src/handle.rs:530-569 | credits are at most what reached the index plus the number of weight changes, strictly below it once a weight changed |
| RewardIndex.CreditsCanExceedEmission | contracts/prism-launch-pool/src/contract.rs:447-507 | without the allowance the bound is false: a pool whose ledger shows 1002 units credited of 1000 emitted, reached by settlements and index updates |
| RewardIndex.ReweighedConserves | contracts/prism-yasset-staking/src/staking.rs:11-40 | a weight that changes without a settlement keeps the law only with what the stake gained: the raise times the index it missed |
| LaunchPoolAccounts.PullCredits | contracts/prism-launch-pool/src/contract.rs:447-477 | the settlement never underflows and adds exactly the credits of both pools |
| LaunchPoolAccounts.BondSettles | contracts/prism-launch-pool/src/contract.rs:224-282 | a bond settles the account and raises its weights, and both totals follow |
| LaunchPoolAccounts.UnbondSettles | contracts/prism-launch-pool/src/contract.rs:284-372 | an unbond succeeds exactly when the bond covers it and nothing or at least the minimum stays; it settles the account and lowers its weights, and a dropped record had nothing in it |
| LaunchPoolAccounts.RefreshSettles | contracts/prism-launch-pool/src/contract.rs:418-443 | a refresh settles the account and changes its boost weight only |
| LaunchPoolAccounts.BoostIsMean | contracts/prism-launch-pool/src/contract.rs:618-649 | every bond, unbond and refresh leaves the boost weight at the geometric mean of bond and boost, rounded down |
| LaunchPoolAccounts.SettlesKeepsWeights | contracts/prism-launch-pool/src/contract.rs:618-649 | after every settlement both total weights are the sums of the accounts' weights, no bond means no boost weight, and a bond has a record |
| LaunchPoolAccounts.SettlesConserves | contracts/prism-launch-pool/src/contract.rs:447-478 | every settlement keeps the reward law of both pools |
| LaunchPoolAccounts.IndexConserves | contracts/prism-launch-pool/src/contract.rs:512-534 | every index update keeps the reward law of both pools |
| LaunchPoolEmission.SplitLosesAtMostOne | contracts/prism-launch-pool/src/contract.rs:516-531 | splitting an amount by the ratio loses at most one unit, and none exactly when the base share is whole |
| LaunchPoolEmission.UpdateSucceeds | contracts/prism-launch-pool/src/contract.rs:481-509 | line 495 never underflows for a pool on schedule, and the update keeps both pools on schedule (EmissionPace says what that is) |
| LaunchPoolEmission.EmissionPace | contracts/prism-launch-pool/src/contract.rs:481-509 | the emission is linear: an update brings each pool to its ratio of the amount times the elapsed seconds over the length, rounded down twice, and to the whole of it past the end |
| LaunchPoolEmission.IndexRises | contracts/prism-launch-pool/src/contract.rs:494-507 | what a pool is newly handed, with what waited, raises its index by it over the weight, rounded down once; without a weight it waits |
| LaunchPoolEmission.ChangeEmitsNothing | contracts/prism-launch-pool/src/contract.rs:674-712 | a ratio change before the end hands out nothing by itself: an update at the same moment finds the pools where it left them |
| LaunchPoolEmission.TotalsAtEnd | contracts/prism-launch-pool/src/contract.rs:481-509 | at or after the end the pools have the whole amount, or all but one unit |
| LaunchPoolEmission.TimelyChange | contracts/prism-launch-pool/src/contract.rs:653-717 | a ratio change before the end always succeeds and puts the rest on a new schedule |
| LaunchPoolEmission.ChangeMovesTotals | contracts/prism-launch-pool/src/contract.rs:678-712 | a ratio change moves what was handed out from the totals to the amount, and nothing is lost |
| LaunchPoolEmission.LateChangeIff | contracts/prism-launch-pool/src/contract.rs:683-712 | after a change past the end, later updates work exactly when neither pool's new share is below its old one |
| LaunchPoolEmission.FairChange | contracts/prism-launch-pool/src/contract.rs:674-712 | every ratio change of a pool on schedule succeeds; it keeps the pool on schedule when it is made before the end or takes from neither pool, and makes every later update fail otherwise |
| LaunchPoolEmission.UpdateWithinAmount | contracts/prism-launch-pool/src/contract.rs:481-509 | an update that succeeds leaves the pools within the amount, whatever was distributed before |
| LaunchPoolEmission.LateChangeCanLock | contracts/prism-launch-pool/src/contract.rs:683-712 | such a change really can make every later update fail |
| LaunchPoolVesting.UpdateVestMoves | contracts/prism-launch-pool/src/vest.rs:27-58 | draining moves value inside the account only, and never touches entries of the future |
| LaunchPoolVesting.UpdateVestDrains | contracts/prism-launch-pool/src/vest.rs:27-58 | an entry moves exactly when it is due and fewer than fifty entries of its account fall due before it |
| LaunchPoolVesting.WithdrawSettles | contracts/prism-launch-pool/src/vest.rs:70-119 | a withdrawal always succeeds, keeps the weights, schedules everything pending, and loses nothing (WithdrawVests says when it falls due) |
| LaunchPoolVesting.WithdrawVests | contracts/prism-launch-pool/src/vest.rs:99-129 | everything credited falls due at a multiple of 86400 seconds, at most the vesting period from now and less than a day short of it, in one entry; no other entry of the future changes |
| LaunchPoolVesting.ClaimPays | contracts/prism-launch-pool/src/vest.rs:191-275 | a claim pays exactly what leaves the account's holdings, nothing of the future |
| LaunchPoolVesting.UpdateIdempotent | contracts/prism-launch-pool/src/contract.rs:512-534 | a second index update at the same time changes nothing |
| LaunchPoolVesting.BulkIsWithdrawals | contracts/prism-launch-pool/src/vest.rs:135-185 | a bulk call leaves the storage of one withdrawal for each account of its page at the same time |
| LaunchPoolVesting.PageKeepsRest | contracts/prism-launch-pool/src/vest.rs:150-185 | records beyond the last account of a page survive the call |
| LaunchPoolVesting.PagesCoverRecords | contracts/prism-launch-pool/src/vest.rs:135-185 | chained pages with any positive limits visit every reward record exactly once, in order, although records are deleted on the way |
| LaunchPoolRuns.StepSound | contracts/prism-launch-pool/src/contract.rs:224-717 | every transaction keeps weights, reward law, emission books and vesting books, whatever schedule, ratio and clock |
| LaunchPoolRuns.WeightsOverRuns | contracts/prism-launch-pool/src/contract.rs:224-346 | in every state of every run both total weights are sums of accounts' weights, no bond means no boost weight, and a bond has a reward record |
| LaunchPoolTiming.UpdatesWorkIff | contracts/prism-launch-pool/src/contract.rs:481-717 | index updates, and with them every bond, unbond and withdrawal, keep working through a run exactly when each ratio the owner set after the end takes from neither pool |
| LaunchPoolTiming.StepFate | contracts/prism-launch-pool/src/contract.rs:674-712 | from a state on schedule a fair transaction leads to one, and any other to a state in which no update ever works again |
| LaunchPoolTiming.EmissionCompletes | contracts/prism-launch-pool/src/contract.rs:481-531 | in such runs, once updated at or after the end, the pools have been handed the whole original amount or one unit less |
| LaunchPoolTiming.NoSpanUpdatesIff | contracts/prism-launch-pool/src/contract.rs:481-509 | a schedule that does not start before its end is accepted only if it ends when it starts, and then updates work exactly until that moment, in every run |
| LaunchPoolRuns.PayoutsWithinOriginal | contracts/prism-launch-pool/src/vest.rs:27-275 | over every run emission stays within the original amount, credits within the emission plus the number of weight changes, payouts within the credits, and each account's credits are pending, vesting, payable or claimed |
| LaunchPoolTiming.OnlyMaturedIsPayable | contracts/prism-launch-pool/src/vest.rs:27-58 | in every run an account is paid or can be paid only what was scheduled for times that have come |
| LaunchPoolTiming.NothingEarly | contracts/prism-launch-pool/src/vest.rs:99-114 | nothing withdrawn from now on is paid as long as a day more than the time passed is within the vesting period; until then an account is paid only from what was scheduled before |
| LaunchPoolTiming.ClaimSucceedsIff | contracts/prism-launch-pool/src/vest.rs:191-275 | a claim succeeds exactly when something was released or is due among the first fifty entries |
| LaunchPoolTiming.SettlingSucceedsIff | contracts/prism-launch-pool/src/contract.rs:224-443 | a bond, unbond, refresh or withdrawal succeeds exactly when the indexes can be brought up to date, the caller may call it, and the bond it leaves is large enough |
| LaunchPoolTiming.ConfigSucceedsIff | contracts/prism-launch-pool/src/contract.rs:653-717 | a configuration call succeeds exactly for the owner, with a ratio within one and indexes that can be brought up to date; it sets minimum bond and ratio as asked |
| LaunchPoolContract.LaunchPool.UpdateRewardIndexes | contracts/prism-launch-pool/src/contract.rs:512-534 | both pools updated, or the error with storage unchanged |
| LaunchPoolContract.LaunchPool.SaveBoost | contracts/prism-launch-pool/src/contract.rs:618-649 | new boost total and record, or the record removed |
| LaunchPoolContract.LaunchPool.Bond | contracts/prism-launch-pool/src/contract.rs:224-282 | the whole new storage, or the error with storage unchanged |
| LaunchPoolContract.LaunchPool.Unbond | contracts/prism-launch-pool/src/contract.rs:284-372 | the whole new storage, or the error with storage unchanged |
| LaunchPoolContract.LaunchPool.RefreshBoost | contracts/prism-launch-pool/src/contract.rs:418-443 | the whole new storage and the current bond |
| LaunchPoolContract.LaunchPool.PrivilegedRefreshBoost | contracts/prism-launch-pool/src/contract.rs:375-393 | only for the boost contract |
| LaunchPoolContract.LaunchPool.ActivateBoost | contracts/prism-launch-pool/src/contract.rs:396-415 | refused without a bond, after the refresh is rolled back |
| LaunchPoolContract.LaunchPool.CollectDue | contracts/prism-launch-pool/src/vest.rs:28-44 | the first loop of update_vest: due entries among the first fifty and their sum |
| LaunchPoolContract.LaunchPool.UpdateVest | contracts/prism-launch-pool/src/vest.rs:27-58 | due entries moved to the payable amount |
| LaunchPoolContract.LaunchPool.WithdrawSingle | contracts/prism-launch-pool/src/vest.rs:70-119 | the whole new storage |
| LaunchPoolContract.LaunchPool.WithdrawRewards | contracts/prism-launch-pool/src/vest.rs:60-68 | the whole new storage |
| LaunchPoolContract.LaunchPool.WithdrawRewardsBulk | contracts/prism-launch-pool/src/vest.rs:135-185 | the whole new storage and the last account of the page, or everything rolled back |
| LaunchPoolContract.LaunchPool.ClaimWithdrawnRewards | contracts/prism-launch-pool/src/vest.rs:191-275 | amount paid and new storage |
| LaunchPoolContract.LaunchPool.ChangeRatio | contracts/prism-launch-pool/src/contract.rs:674-712 | the rescheduling branch, or the error with storage unchanged |
| LaunchPoolContract.LaunchPool.UpdateConfig | contracts/prism-launch-pool/src/contract.rs:653-717 | only for the owner; minimum bond and ratio |
| LpStakingOrders.ScanExact | contracts/prism-lp-staking/src/state.rs:174-205 | reading 51 orders and releasing at most 50, an order is released exactly when it is overdue and fewer than fifty are older, and orders_pending holds exactly when one remains |
| LpStakingOrders.PullMoves | contracts/prism-lp-staking/src/handle.rs:572-588 | released amounts move from the orders to the withdrawable amount, and nothing else changes |
| LpStakingCustody.BondMoves | contracts/prism-lp-staking/src/handle.rs:177-230 | a bond settles pool and staker and puts exactly the amount on the books |
| LpStakingCustody.UnbondMoves | contracts/prism-lp-staking/src/handle.rs:232-351 | an unbond settles pool and staker, and its amount leaves at once or becomes an order |
| LpStakingCustody.ClaimUnbondedMoves | contracts/prism-lp-staking/src/handle.rs:353-411 | fetching takes exactly the owed amount off the books and touches neither bond nor rewards |
| LpStakingCustody.ClaimOneMoves | contracts/prism-lp-staking/src/handle.rs:441-471 | a reward claim pays exactly what is pending and changes no bond |
| LpStakingClaims.ClaimPaysAll | contracts/prism-lp-staking/src/handle.rs:413-490 | a claim pays exactly what the caller has earned in the pool named, or in every pool with a record of the caller; nothing stays pending there, and no other pool or record changes |
| LpStakingCustody.SavesOrDrops | contracts/prism-lp-staking/src/handle.rs:590-608 | a record is dropped only when it is empty and no order is left; the index of stakers follows |
| LpStakingCustody.MovedBooks | contracts/prism-lp-staking/src/handle.rs:177-411 | every staker call keeps the pools' totals equal to the sums of records and orders, and records, orders and index linked |
| LpStakingBudget.ShareBound | contracts/prism-lp-staking/src/handle.rs:537-546 | the four roundings of a pool's share never exceed the exact share |
| LpStakingBudget.ShareBoundBelow | contracts/prism-lp-staking/src/handle.rs:537-546 | the four roundings take less than four units from the exact share, for amounts and seconds up to 10^18 |
| LpStakingBudget.EntryRewardBelow | contracts/prism-lp-staking/src/handle.rs:530-550 | what a pool receives from a schedule is its exact share of the time since its last distribution that is within the schedule, short of four units, whenever it is settled, after the end included |
| LpStakingBudget.EmittedWithinAmount | contracts/prism-lp-staking/src/handle.rs:530-550 | within the budget all pools together have taken at most the schedule's amount |
| LpStakingBudget.SettleKeepsBudget | contracts/prism-lp-staking/src/handle.rs:530-560 | settling one pool against a total weight no smaller than the budget's keeps the budget |
| LpStakingReweighting.LoopBudget | contracts/prism-lp-staking/src/handle.rs:142-155 | with a new weight no smaller, or no weighted pool settled later, the loop keeps the budget although later pools see the changed total |
| LpStakingReweighting.LoopShape | contracts/prism-lp-staking/src/handle.rs:142-159 | the loop settles every pool once, changes one weight, and the total by the same |
| LpStakingReweighting.RegisterIsUpdate | contracts/prism-lp-staking/src/handle.rs:76-94 | registering runs the same settling loop over pools that do not contain the token |
| LpStakingRewards.ReceiveSound | contracts/prism-lp-staking/src/handle.rs:530-560 | a pool update hands exactly what the schedules emit to its index, or lets it wait |
| LpStakingRewards.CreditSound | contracts/prism-lp-staking/src/handle.rs:563-569 | crediting a staker keeps the reward law of every pool |
| LpStakingResults.StepSound | contracts/prism-lp-staking/src/handle.rs:35-517 | every transaction keeps books, budget and rewards, while the clock runs forward and weights change safely |
| LpStakingResults.EmissionWithinSchedules | contracts/prism-lp-staking/src/handle.rs:530-560 | over every run no schedule pays more than its amount, with overlapping schedules, late settlement, new pools and schedules and safe weight changes; all rewards paid are within the amounts plus the number of bond changes |
| LpStakingDelivery.SettlementIs | contracts/prism-lp-staking/src/handle.rs:530-560 | a settlement takes from every schedule its share of the time since the last one, from above and from below, and passes all of it to the index, rounded down once, or lets it wait |
| LpStakingDelivery.StepDelivers | contracts/prism-lp-staking/src/handle.rs:35-517 | every transaction keeps the law that no settled second of a schedule is lost, whatever weights the owner sets |
| LpStakingDelivery.SchedulesAreDelivered | contracts/prism-lp-staking/src/handle.rs:530-560 | over every run: once all pools are settled after the end of a schedule they have been handed all of its amount that belongs to the time since the weights last changed, short of four units per settlement |
| LpStakingDelivery.AddedLater | contracts/prism-lp-staking/src/handle.rs:35-59 | schedules added by the owner are appended, are not empty, and hand out nothing at the moment they are added |
| LpStakingDelivery.OrderWaits | contracts/prism-lp-staking/src/handle.rs:232-351 | an unbond from a pool with a period becomes an order of the whole amount that no scan releases before the period is over |
| LpStakingDelivery.OnlyTheOwner | contracts/prism-lp-staking/src/handle.rs:35-175 | schedules, pools, weights and periods stay as they are when anybody but the owner asks |
| LpStakingHolding.StepHeldIff | contracts/prism-lp-staking/src/handle.rs:35-517 | every transaction keeps books and cover, whatever clock, schedules and weights, with one exact exception: a claim that pays out more PRISM than the contract holds beyond staked PRISM |
| LpStakingHolding.CustodyLastsIff | contracts/prism-lp-staking/src/handle.rs:35-517 | custody lasts through a run exactly when no claim of the run pays out staked PRISM |
| LpStakingHolding.CustodyOverRuns | contracts/prism-lp-staking/src/handle.rs:177-411 | in every state of every run in which PRISM is no staking token the contract holds of each staking token at least all bonds, orders and released amounts; no order survives its record; the index matches the records |
| LpStakingHolding.RunTimely | contracts/prism-lp-staking/src/handle.rs:35-517 | while the clock runs forward, pools are not settled in the future and no record is ahead of its pool, in every such run |
| LpStakingHolding.SurplusIsExact | contracts/prism-lp-staking/src/handle.rs:492-517 | staking the surplus makes the balance equal to the books |
| LpStakingResults.UnbondSucceedsIff | contracts/prism-lp-staking/src/handle.rs:232-351 | an unbond succeeds exactly when the record covers the amount, no order of the same second exists, and there is weight or no schedule running since the last distribution; so weights lowered to zero block every unbond while a schedule runs; the tokens it sends are there |
| LpStakingResults.FetchSucceedsIff | contracts/prism-lp-staking/src/handle.rs:353-411 | fetching succeeds exactly when something was released or an order of a positive amount among the first fifty is overdue; the tokens it sends are there |
| LpStakingLowering.UnsafeOverspends | contracts/prism-lp-staking/src/handle.rs:142-155 | the safety condition is exact: from every sound world with modest weights, a schedule of one second and then a weight lowered while a later pool has weight emit more than that schedule's whole amount |
| LpStakingLowering.LoopHandsOut | contracts/prism-lp-staking/src/handle.rs:133-159 | what the settling loop hands out: each pool's share, up to the changed one against the old total and after it against the new one |
| LpStakingResults.PrismStakedBreaksCustody | contracts/prism-lp-staking/src/handle.rs:413-490 | a run from instantiation with PRISM as a staking token: a claim is paid out of the stakes, and less is held than is bonded |
| LpStakingResults.StartSound | contracts/prism-lp-staking/src/contract.rs:25-69 | instantiation starts with books, budget and rewards in order |
| LpStakingResults.StartHeld | contracts/prism-lp-staking/src/contract.rs:25-69 | instantiation starts with books, cover and times in order, PRISM among the pools or not |
| LpStakingContract.LpStaking.ComputePoolReward | contracts/prism-lp-staking/src/handle.rs:530-560 | the loop over the schedules and the new index, or the error |
| LpStakingContract.LpStaking.GetWithdrawable | contracts/prism-lp-staking/src/state.rs:174-205 | the fold: amount, released orders and count |
| LpStakingContract.LpStaking.RemoveWithdrawn | contracts/prism-lp-staking/src/state.rs:207-216 | exactly those orders removed |
| LpStakingContract.LpStaking.PullExpired | contracts/prism-lp-staking/src/handle.rs:572-588 | new orders, record and pending flag |
| LpStakingContract.LpStaking.UpdateOrRemove | contracts/prism-lp-staking/src/handle.rs:590-608 | record saved, or record and index entry removed |
| LpStakingContract.LpStaking.Bond | contracts/prism-lp-staking/src/handle.rs:177-230 | the whole new storage, or the error with storage unchanged |
| LpStakingContract.LpStaking.Unbond | contracts/prism-lp-staking/src/handle.rs:232-351 | the whole new storage and the tokens sent |
| LpStakingContract.LpStaking.ClaimUnbonded | contracts/prism-lp-staking/src/handle.rs:353-411 | the whole new storage and the tokens sent |
| LpStakingContract.LpStaking.ClaimRewards | contracts/prism-lp-staking/src/handle.rs:413-490 | the loop over the caller's pools: new storage and PRISM sent, or all rolled back |
| LpStakingContract.LpStaking.AutoStakeHook | contracts/prism-lp-staking/src/handle.rs:492-517 | the surplus bonded for the caller |
| LpStakingContract.LpStaking.AddDistributionSchedule | contracts/prism-lp-staking/src/handle.rs:35-59 | all schedules checked, then appended |
| LpStakingContract.LpStaking.SettlePools | contracts/prism-lp-staking/src/handle.rs:76-94 | the settling loop of a registration |
| LpStakingContract.LpStaking.RegisterStakingToken | contracts/prism-lp-staking/src/handle.rs:61-113 | pools settled, the new one added, the total raised |
| LpStakingContract.LpStaking.ReweightPools | contracts/prism-lp-staking/src/handle.rs:133-159 | the settling loop of a weight change, total changed on the way |
| LpStakingContract.LpStaking.UpdateStakingToken | contracts/prism-lp-staking/src/handle.rs:115-175 | weight and unbonding period, or the error with storage unchanged |
| GovPolls.CreateKeeps | contracts/prism-gov/src/polls.rs:29-95 | a new poll gets the next number, starts in progress with nothing tallied, and is indexed |
| GovPolls.CreateTerms | contracts/prism-gov/src/polls.rs:29-95 | exactly when a poll can be opened, and its terms: it ends after the voting period, under the quorum and threshold of that moment |
| GovPolls.SnapshotOutcome | contracts/prism-gov/src/polls.rs:346-380 | a snapshot is taken exactly once, in the last part of a poll in progress, and stores the supply |
| GovPolls.EndPollOutcome | contracts/prism-gov/src/polls.rs:100-194 | exactly when a poll can be ended; with a nonempty snapshot the deposit is burned exactly when the quorum is missed and refunded otherwise, and the poll passes exactly when the quorum is met with "yes" above the threshold |
| GovPolls.ExecuteOutcome | contracts/prism-gov/src/polls.rs:199-241 | exactly when a poll can be executed, and that a failing message turns it into a failed one |
| GovPolls.SetStatusKeeps | contracts/prism-gov/src/polls.rs:180-186 | a status change moves the poll between index buckets and keeps its terms |
| GovPolls.QuorumRule | contracts/prism-gov/src/polls.rs:126-142 | the rounded quorum test is the exact comparison of shares |
| GovPolls.ThresholdRule | contracts/prism-gov/src/polls.rs:158 | the rounded threshold test as an exact comparison |
| GovPolls.EmptySupplyQuorum | contracts/prism-gov/src/polls.rs:136-142 | with an empty supply any vote counts as quorum zero |
| GovVotes.CastKeeps | contracts/prism-gov/src/polls.rs:261-341 | a vote keeps tallies, voter records, locks and cover |
| GovVotes.CastOutcome | contracts/prism-gov/src/polls.rs:261-341 | exactly when a vote is possible, and all it does: the tally of its option, lock, record, and the snapshot near the end |
| GovVotes.WithdrawOutcome | contracts/prism-gov/src/voting.rs:35-71 | what is sent leaves the deposit; without an amount exactly the largest running vote is left |
| GovVotes.WithdrawKeeps | contracts/prism-gov/src/voting.rs:35-71 | a withdrawal keeps every running vote covered, tallies right, and locks and voter records matched |
| GovVotes.WithdrawSucceedsIff | contracts/prism-gov/src/voting.rs:35-71 | exactly when a withdrawal succeeds: the largest running vote stays covered |
| GovVotes.StakeKeeps | contracts/prism-gov/src/voting.rs:13-32 | staking keeps votes and cover |
| GovVotes.StakeOutcome | contracts/prism-gov/src/voting.rs:13-32 | staking needs an amount and puts exactly it on the deposit |
| GovVotes.DropVotesKeys | contracts/prism-gov/src/voting.rs:74-105 | the clean-up removes exactly the caller's voter records of listed polls that are over |
| GovVotes.TallyBacked | contracts/prism-gov/src/polls.rs:302-341 | a running poll's tally is the sum of its voter records, each within its voter's deposit, and at most all deposits |
| GovRedemption.ClaimExact | contracts/prism-gov/src/xprism.rs:142-180 | a claim fails only when nothing is due and takes exactly the due orders among the first fifty off the books |
| GovRedemption.RedeemKeeps | contracts/prism-gov/src/xprism.rs:60-105 | the stored totals stay the sums of the stored orders |
| GovRedemption.MintExact | contracts/prism-gov/src/xprism.rs:30-43 | a deposit of PRISM mints its share of the xPRISM in effect over the PRISM in effect without the deposit, rounded down once, and one to one while there is none; it is refused exactly when more is pending than there is |
| GovRedemption.RedeemExact | contracts/prism-gov/src/xprism.rs:60-105 | xPRISM is redeemed for its share of the PRISM in effect, rounded down once, ordered for exactly the redemption time later; exactly when this succeeds, a second order of the same second being refused |
| GovRedemption.OrdersWait | contracts/prism-gov/src/xprism.rs:142-180 | a claim pays an order exactly when its time has come and fewer than fifty orders of the account are due before it |
| GovRedemption.RedeemKeepsRate | contracts/prism-gov/src/xprism.rs:60-105 | redeeming returns at most what is there and does not lower the rate |
| GovRedemption.MintThenRedeem | contracts/prism-gov/src/xprism.rs:22-104 | minting and redeeming at once never returns more than was put in |
| GovRuns.StepSound | contracts/prism-gov/src/contract.rs:94-131 | every transaction keeps polls, votes, orders and custody, and moves polls forward only |
| GovRuns.CustodyOverRuns | contracts/prism-gov/src/xprism.rs:60-180 | gov's xPRISM covers voting deposits, deposits of running polls and pending redemptions; its PRISM covers pending PRISM; poll deposits received are burned, refunded or held |
| GovRuns.PaymentsCovered | contracts/prism-gov/src/voting.rs:60-70 | no withdrawal, poll end or claim fails for lack of tokens |
| GovRuns.EndedStaysEnded | contracts/prism-gov/src/polls.rs:100-256 | an ended poll never runs again and keeps its terms, so its deposit leaves only once |
| GovRuns.VotesBackedOverRuns | contracts/prism-gov/src/polls.rs:261-341 | in every reachable state a running poll's tally is the sum of its voter records and at most all deposits, and each of its voters has deposited what was voted |
| GovRuns.LocksAreVotesOverRuns | contracts/prism-gov/src/polls.rs:319-341 | in every reachable state an account's locks name different polls and are exactly its voter records |
| GovRuns.StepKeepsRate | contracts/prism-gov/src/xprism.rs:22-180 | no transaction lowers the rate, and claims leave both sides of it |
| GovRuns.MintStep | contracts/prism-gov/src/xprism.rs:22-58 | in every sound state a mint adds exactly the deposit's share at the rate before it, rounded down once |
| GovRuns.RedeemStep | contracts/prism-gov/src/xprism.rs:60-105 | in every sound state a redemption takes xPRISM and its share of PRISM out of the rate and puts both on an order |
| GovRuns.TermsOverRuns | contracts/prism-gov/src/contract.rs:213-270 | no quorum or threshold above one is ever in force, so none in any poll |
| GovRuns.PollsWithinReach | contracts/prism-gov/src/contract.rs:454-472 | in every reachable state a poll on which the whole supply was voted does not miss its quorum |
| GovRuns.RateHoldsIff | contracts/prism-gov/src/xprism.rs:22-140 | through a whole run the rate stays at or above one it had reached exactly when that one was at most one to one or nothing is minted while gov has neither PRISM nor xPRISM in effect |
| GovRuns.RateAfter | contracts/prism-gov/src/xprism.rs:22-140 | the same for one transaction: only a mint into an empty gov, after a rate above one, lowers it |
| GovRuns.RateNeverFalls | contracts/prism-gov/src/xprism.rs:22-140 | the rate never falls over a run without such a mint |
| GovRuns.RateFallsAfterExit | contracts/prism-gov/src/xprism.rs:39-43 | the side condition is needed: after everybody left, minting starts over at one to one |
| GovRuns.ThreeForTwoReached | contracts/prism-gov/src/xprism.rs:22-58 | the run of that example starts in a state reached from instantiation |
| GovContract.Gov.CreatePoll | contracts/prism-gov/src/polls.rs:29-95 | the whole new storage and the poll's number |
| GovContract.Gov.EndPoll | contracts/prism-gov/src/polls.rs:100-194 | the whole new storage, what is burned and what is refunded |
| GovContract.Gov.ExecutePoll | contracts/prism-gov/src/polls.rs:199-241 | the whole new storage, or the error with storage unchanged |
| GovContract.Gov.CastVote | contracts/prism-gov/src/polls.rs:261-341 | the whole new storage, or the error with storage unchanged |
| GovContract.Gov.CleanLocks | contracts/prism-gov/src/voting.rs:79-97 | the filter: finished votes dropped and listed, and the largest running one |
| GovContract.Gov.Retain | contracts/prism-gov/src/voting.rs:99-102 | the entries not listed, in order |
| GovContract.Gov.WithdrawVotingTokens | contracts/prism-gov/src/voting.rs:35-71 | the whole new storage and the xPRISM sent |
| GovContract.Gov.RedeemXprism | contracts/prism-gov/src/xprism.rs:60-105 | the order and the totals, or the error with storage unchanged |
| GovContract.Gov.CollectDue | contracts/prism-gov/src/xprism.rs:147-164 | the first loop: due orders and their sums |
| GovContract.Gov.RemoveOrders | contracts/prism-gov/src/xprism.rs:166-168 | exactly those orders removed |
| GovContract.Gov.ClaimRedeemedPrism | contracts/prism-gov/src/xprism.rs:107-140 | the whole new storage, what is burned and what is sent |
| YassetRewards.DepositSplit | contracts/prism-yasset-staking/src/rewards.rs:35-71 | the stakers' reward is at most their exact share of the deposit, and with a valid fee nothing underflows |
| YassetRewards.DepositExact | contracts/prism-yasset-staking/src/rewards.rs:35-71 | the stakers' part is the exact share of the deposit within two units, all of it when they stake as much as the vault's bond, and the fee takes its percentage of that part, rounded down once |
| YassetRewards.RaiseExact | contracts/prism-yasset-staking/src/rewards.rs:72-87 | the reward raises the index of its asset by it over all stakes, rounded down once, and no other index |
| YassetRewards.RecordSettles | contracts/prism-yasset-staking/src/rewards.rs:333-358 | a settlement never underflows and adds exactly the credit; a missing record starts at the current index |
| YassetRewards.SettlesAll | contracts/prism-yasset-staking/src/rewards.rs:360-374 | every whitelisted asset is settled once, duplicates in the list included, and nothing else changes |
| YassetRuns.RebondSound | contracts/prism-yasset-staking/src/staking.rs:11-40 | a change of bond keeps the law of every asset: whitelisted ones are settled first, and what a stale record gains is counted |
| YassetRuns.PourEach | contracts/prism-yasset-staking/src/rewards.rs:22-94 | deposits keep the law of every asset |
| YassetRuns.PourSplits | contracts/prism-yasset-staking/src/rewards.rs:22-94 | of every asset what goes to the stakers and what is sent on add up to what was deposited; only listed assets are taken |
| YassetRuns.NobodyStaked | contracts/prism-yasset-staking/src/rewards.rs:22-94 | with nothing staked a deposit is sent on in full, whatever the vault holds |
| YassetRuns.StakeSucceeds | contracts/prism-yasset-staking/src/staking.rs:11-40 | in every sound state a stake succeeds and raises bond and total by exactly the amount |
| YassetRuns.UnbondExact | contracts/prism-yasset-staking/src/staking.rs:42-103 | an unbond takes exactly the amount, or all of it, off the bond and the total |
| YassetRuns.WhitelistMoves | contracts/prism-yasset-staking/src/rewards.rs:376-432 | a removal takes one occurrence off the list, an addition appends one |
| YassetRuns.ClaimsAll | contracts/prism-yasset-staking/src/rewards.rs:97-154 | a claim pays of each asset exactly what was payable, once, and leaves nothing pending |
| YassetRuns.ConvertsAll | contracts/prism-yasset-staking/src/rewards.rs:191-265 | a conversion does the same for the assets with something payable and leaves the other records alone |
| YassetRuns.StepSound | contracts/prism-yasset-staking/src/contract.rs:72-116 | every transaction keeps the laws, removals from the whitelist included |
| YassetRuns.CreditsOverRuns | contracts/prism-yasset-staking/src/rewards.rs:35-87 | over every run payments plus pending are the credits, and these are within deposits, the gains of stale records and the number of stake changes |
| YassetRuns.GainsIff | contracts/prism-yasset-staking/src/staking.rs:11-40 | there are such gains of an asset exactly when a stake is raised by the holder of a record of it that is behind the index while the asset is off the whitelist |
| YassetRuns.RewardsOverRuns | contracts/prism-yasset-staking/src/rewards.rs:35-87 | over every run without such a raise, removals included, the credits are below deposits plus the number of stake changes |
| YassetRuns.UnbondSucceedsIff | contracts/prism-yasset-staking/src/staking.rs:42-103 | in every reachable state an unbond fails only for asking more than is bonded |
| YassetDeposits.StepFee | contracts/prism-yasset-staking/src/contract.rs:141-171 | nothing but a call that sets the fee changes it, and only to one of at most one half |
| YassetDeposits.DepositSucceedsIff | contracts/prism-yasset-staking/src/rewards.rs:22-94 | in every reachable state a deposit is accepted exactly when all its assets are listed and the vault is not empty while anything is staked |
| YassetRemovals.RaiseGains | contracts/prism-yasset-staking/src/staking.rs:11-40 | raising a stake changes what is payable of an asset only where the record is stale, and there by the raise times the missed index, within two units |
| YassetRemovals.StaleRaiseOvercredits | contracts/prism-yasset-staking/src/rewards.rs:82-87 | in every sound state with a stale record, every raise that is large enough makes the credits exceed deposits and changes once the asset is back |
| YassetRemovals.RemovalOvercredits | contracts/prism-yasset-staking/src/rewards.rs:405-432 | a run from instantiation in which this happens |
| YassetContract.YassetStaking.DepositRewards | contracts/prism-yasset-staking/src/rewards.rs:22-94 | the loop over the assets: new indexes and what goes to the collector, or all rolled back |
| YassetContract.YassetStaking.ComputeAllRewards | contracts/prism-yasset-staking/src/rewards.rs:360-374 | the settling loop |
| YassetContract.YassetStaking.Bond | contracts/prism-yasset-staking/src/staking.rs:11-40 | the whole new storage |
| YassetContract.YassetStaking.Unbond | contracts/prism-yasset-staking/src/staking.rs:42-103 | the whole new storage and what is sent back |
| YassetContract.YassetStaking.ClaimRewards | contracts/prism-yasset-staking/src/rewards.rs:97-154 | the claiming loop: new storage and what is sent |
| YassetContract.YassetStaking.ConvertAndClaimRewards | contracts/prism-yasset-staking/src/rewards.rs:160-265 | the rewards part of the conversion |
| YassetContract.YassetStaking.RemoveWhitelistedRewardAsset | contracts/prism-yasset-staking/src/rewards.rs:405-432 | the first occurrence removed, or the error |

## Left out

- Message encoding, attributes, reply parsing, queries, migrations and address validation: plumbing; only token movements are kept, as ghost balances.
- Overflow of 128-bit and 64-bit integers: amounts are natural numbers; an overflow aborts the transaction and so leaves the state as a failing call does.
- The bank, staking module and cw20 tokens: their balances, supplies and delegations are parameters or ghost state; a token that refuses transfers of zero only makes more calls fail.
- The random generator of the undelegation: every sequence of draws is covered.
- Owner checks and plain setters of the vault, the yAsset contract and governance, the choice of a validator for new bonds, the airdrop registry, the collector and swaps, splitting and merging of yLuna: easy map updates or routing over contracts that are not modelled.
- The boost contract (`prism-xprism-boost`): a boost amount is an arbitrary natural number; the library's integer square root is modelled by its specification.
- Titles, descriptions and links of polls and their length checks.
- Funding of the reward tokens: what a claim pays is related to the emission, not to the PRISM the contracts were sent.
- In-place order of storage writes inside one call: a method may collect its result in local copies and store them at the end; a failing call is rolled back as a whole.
- VaultSolvency.VaultAlwaysPays: assumes that each release of the run fits what arrived, as described above; the condition is exact for the allocation, while a release that does not fit may still be payable, since every holder's part is rounded down.
- VaultSolvency.StepKeeps: assumes the same of the one release.
- VaultBacking.BackedOverRuns: assumes holdings that stay sizable (a positive bond, claims at most 10^18 and above 10^9 for each closed epoch), since the code resets the rate to one or divides by zero in the empty cases.
- VaultBacking.BondSucceedsIff: assumes a backed vault without the excess of earlier epochs.
- LaunchPoolTiming.UpdatesWorkIff: assumes a schedule that starts before it ends; NoSpanUpdatesIff says what happens otherwise.
- LaunchPoolTiming.OnlyMaturedIsPayable: assumes a clock that does not run backwards.
- LpStakingResults.EmissionWithinSchedules: assumes a clock that does not run backwards and safe weight changes.
- LpStakingBudget.EntryRewardBelow: assumes amounts and seconds of at most 10^18; beyond that the nested roundings lose more than four units.
- LpStakingDelivery.SchedulesAreDelivered: assumes the same of the schedule, a clock that does not run backwards, and counts from the last change of weights, since an earlier one may already have paid a pool against another total.
- LpStakingDelivery.SettlementIs: assumes a positive total weight and schedules that end after they start; `LpStakingResults.UnbondSucceedsIff` says what happens without weight.
- YassetRewards.DepositExact: the lower bound of the stakers' share assumes a deposit of at most 10^18.
- VaultEpochs.EpochsApart: compares with the shortest epoch any parameters of the run allow.
- VaultUndelegation.EpochNeverStuck: assumes something bonded and delegated.
- LpStakingHolding.CustodyOverRuns: assumes that PRISM is not a staking token; CustodyLastsIff gives the exact condition.
- LpStakingResults.UnbondSucceedsIff: assumes a clock that does not run backwards.
- RewardIndex.CreditsBounded: the count of weight changes is an upper bound of what rounding adds, not its exact value.
- LpStakingLowering.UnsafeOverspends: weights so modest that the number of pools times the squared total is below 10^18; beyond that the rounding of a weight can hide the difference.
- GovRuns.CustodyOverRuns: assumes that the message of an executed poll moves none of gov's own tokens.
- GovRuns.RateNeverFalls: assumes that nothing is minted while gov has neither PRISM nor xPRISM in effect; RateHoldsIff gives the exact condition.
- YassetRuns.RewardsOverRuns: assumes that no stale record of the asset sees its stake raised; CreditsOverRuns bounds the credits without that.
- YassetContract.YassetStaking.ConvertAndClaimRewards: only the reward records; the swap messages and the choice of the target asset are not modelled.
- The yLuna balance of the yAsset contract holds stakes and yLuna rewards together; their custody is not modelled.
