# Stellar Insured contracts: a verified model

This project models eight smart contracts of the Stellar Insured repository in Dafny and proves what
they keep over every sequence of messages.

Each contract comes in four parts.

* A module of functions from storage to storage, one per message, with the branches, error cases and
  arithmetic of the code (`Liquidity`, `Insurance`, `Fees`, `Bridge`, `Escrow`, `Governance`,
  `Policies`, `Claims`, `Documents`). A message that returns an error or panics changes nothing.
* A class with the contract's storage fields and methods that update them in place, loops included
  (`InsuranceContract`, `FeeManagerContract`, `BridgeContract`, `EscrowContract`,
  `GovernanceContract`, `ClaimsContract`, `DocumentsContract`). Every method is proved to commit
  exactly what the function of its message says, and to leave everything else alone.
* Theorems about runs: any sequence of messages, by any callers, with any values and timestamps,
  failing ones included, folded from a new contract. Conservation is stated against a ledger that is
  kept outside the contract and adds up the reports of successful messages.
* Rules, one per message (`LiquidityRules`, `InsuranceRules`, `FeesRules`, `BridgeRules`, `EscrowRules`,
  `GovernanceRules`, `ClaimsRules`, `DocumentsRules`): when exactly the message is accepted and all that
  it changes, in the terms of the business rather than of the code, in reachable states where that says
  more (a nonce is the number of one's own requests, a count of approvals is a set of signers).

The insurance contract is the centre. `Solvency` proves its reward accounting with the potential
"stake times index less scaled debt", summed over an unbounded map of providers; `InsuranceBook` keeps
payouts, counters and the redundant indexes in agreement; `InsuranceRuns` and `InsuranceTheorems` carry
both to whole runs. `InsurancePolicies` and `InsuranceRecoveries` follow single policies and the
reinsurance through a run, and `InsuranceExamples` holds runs that reach the cases in which a promise
fails.

## Arithmetic

* `saturating_*` on balances is modelled with its 128-bit limit. The run theorems of the insurance
  contract ask for headroom on sums of money only (deposits, premiums counted twice, and one unit per
  stake change); products may saturate freely, except in `ProRata` and `VestingTelescopes`, which say
  so. The fee theorem asks that the fees collected fit.
* Plain `+` wraps in the release profile (`stellar-insured-contracts/Cargo.toml:41`). It is modelled
  as wrapping where that can matter: vote tallies, request and proposal deadlines, policy expiry and
  duration, pinned sizes. Counters, and totals that are only ever added to, are unbounded.
* The fixed-point precision is 10^18 and fees are in basis points, as in the code.

## Where the code differs from its comments or names

Line numbers refer to `insurance_impl.rs`.

* `withdraw_liquidity` shadows `total_out`, so the amount it transfers is always zero (371, 406, 418,
  452). The theorems speak of the pool and provider records.
* A withdrawal penalty is credited to available capital although the vesting amount never left it
  (402). The solvency theorem therefore leaves penalties out of the cover.
* With vesting switched off, `claim_vested_rewards` pays the total without what was claimed (605-612).
* A provider who withdraws its whole stake loses its vesting record (431-437).
* `expire_policies` calls its limit `max_scan`, but it limits expirations.
* The renewal fee is taken but added to no counter (228-233); the auto-approved parametric claim uses
  up neither nonce nor evidence and leaves its caller's cooldown alone (1164-1193); its payout does start
  the cooldown of the property.
* `process_claim` does not look at the remaining coverage, and leaves a claim for no more than its
  deductible approved and unpaid (1519-1531, 2754-2756).
* A renewed policy can no longer file a claim, be cancelled, expire or be sold, since each of these asks
  for status Active (216, 240, 1021, 1113, 1985); its pool counts it as active.
* The limit of a reinsurance agreement bounds each payout, not their sum (2828-2833).
* The premium divisor is 10^12 where its comment says 1,000,000.
* The deductible is announced as five percent scaled by risk; its divisor makes it 0.4 to 2 percent
  (807-812). A withdrawal with rewards pending restarts the vesting schedule before its penalty is
  computed (373-403), so the penalty also takes from what had vested.
* `distribute_fees` announces "rest to treasury" but sets the treasury to zero, so the rest is dropped.
* `compute_dynamic_fee` announces up to 200 percent for congestion; its divisor makes that two percent
  at a sensitivity of 100. Sensitivity is announced as 0 to 100 but not checked.
* `sign_bridge_request` does not look at the status of a request, and counts rejections.
* The claims contract checks each claim against the coverage, not their sum.
* `vote` accepts negative weights.
* `create_escrow_advanced` accepts repeated participants.
* `report_malicious_file` leaves the pinned size of a pinned document counted.

## Model

| member | source | states |
|---|---|---|
| `InsuranceTheorems.EveryRunBacksRewards` | stellar-insured-contracts/contracts/insurance/src/insurance_impl.rs:2629-2667 | After any sequence of messages by anyone, rewards paid, reinvested, moved into vesting and still pending in a pool stay within the premium shares accrued plus less than one unit per deposit, withdrawal and reinvestment; no assumption that products fit, vesting on or off |
| `InsuranceTheorems.EveryRunIsSolvent` | stellar-insured-contracts/contracts/insurance/src/insurance_impl.rs:338-459 | After any run the capital left plus the claims paid cover all stakes, all pending rewards and all outstanding vesting, up to one unit per stake change and the vested payments made twice; penalties, which credit money that never left, are kept out of the cover |
| `InsuranceTheorems.EveryRunAccountsForCapital` | stellar-insured-contracts/contracts/insurance/src/insurance_impl.rs:169-176 | After any run a pool's total stake, its total capital and the sum of its providers' stakes are equal, and its available capital is exactly inflow minus outflow, so that no saturating operation on them ever clipped |
| `InsuranceTheorems.EveryRunListsProviders` | stellar-insured-contracts/contracts/insurance/src/insurance_impl.rs:432-441 | A pool lists exactly its providers, once each, and nobody without a stake is one |
| `InsuranceTheorems.EveryRunVestsWithinMoved` | stellar-insured-contracts/contracts/insurance/src/insurance_impl.rs:585-681 | A provider is never paid more from its schedule than was ever moved into it, across penalties, restarts, exits and returns, as long as it claims only while vesting is configured or before it claimed anything; in any run the excess is at most what was paid a second time |
| `InsuranceTheorems.EveryRunUnclipped` | stellar-insured-contracts/contracts/insurance/src/insurance_impl.rs:166-172 | Along a run no stored reward debt ever exceeds what its stake has earned, so that the saturating subtraction in the pending reward never clips, if and only if every accepted deposit passed a check its depositor could make: the product fits, or the debts fit the saturated earnings |
| `InsuranceTheorems.EveryRunReconcilesPayouts` | stellar-insured-contracts/contracts/insurance/src/insurance_impl.rs:2747-2808 | Every pool's claims paid equal the total claimed of its policies, every policy's total claimed equals the payouts of its paid claims, and open policies are counted in their pool, over single reviews and the error-swallowing batch reviews |
| `InsuranceTheorems.EveryRunIndexesPolicies` | stellar-insured-contracts/contracts/insurance/src/insurance_impl.rs:939-950 | Policies, tokens and claims are numbered without gaps; the holder, property and claim lists, each policy's one token, its owner and the market listings agree with the policies after every issue, listing and sale |
| `InsuranceTheorems.DecisionsAreFinal` | stellar-insured-contracts/contracts/insurance/src/insurance_impl.rs:1491-1555 | No modelled message changes a claim once it is approved, rejected or paid, so none is paid twice and an approval whose payout failed in a batch stays unpaid |
| `InsuranceTheorems.ExpireIsComplete` | stellar-insured-contracts/contracts/insurance/src/insurance_impl.rs:297-328 | An expiry scan changes overdue policies only, reports exactly how many fewer are overdue, and leaves one overdue only when its limit is used up; the limit bounds expirations, not the policies looked at |
| `InsuranceTheorems.PaymentsAreSplit` | stellar-insured-contracts/contracts/insurance/src/insurance_impl.rs:888-899 | A new policy's payment is split between platform fee and pool to the unit, nine tenths or more to the pool; a renewal's fee is booked nowhere |
| `InsuranceTheorems.ExitForfeitsVesting` | stellar-insured-contracts/contracts/insurance/src/insurance_impl.rs:431-441 | From the moment a provider is gone from a pool, in every continuation it is paid from its schedule, beyond repetitions, only what is moved into it later: whatever it had vesting is lost |
| `InsurancePolicies.PricesFollowRisk` | stellar-insured-contracts/contracts/insurance/src/insurance_impl.rs:777-823 | More coverage or a worse score never lowers premium or deductible; the deductible stays within two percent of the coverage, and the premium within 15 millionths |
| `InsurancePolicies.EveryRunSellsDeductibles` | stellar-insured-contracts/contracts/insurance/src/insurance_impl.rs:800-812 | Every policy of every run has a deductible, of at most two percent of its coverage, because its premium reached the minimum |
| `InsurancePolicies.AcceptedApplication` | stellar-insured-contracts/contracts/insurance/src/insurance_impl.rs:843-905 | An accepted application pays the premium of its risk, at least the minimum, and keeps coverage within the pool's ratio of total capital and of available capital with the premium; when the products fit, that and the plain checks are also enough |
| `InsurancePolicies.AcceptedClaim` | stellar-insured-contracts/contracts/insurance/src/insurance_impl.rs:1069-1137 | A claim is accepted if and only if its policy is active and has the amount left, its property and caller are past their cooldowns, and nonce and kind of evidence are unused |
| `InsurancePolicies.EvidenceIsUsedOnce` | stellar-insured-contracts/contracts/insurance/src/insurance_impl.rs:1098-1102 | After an ordinary submission no later one with the same kind of evidence for the same policy is accepted, in any continuation, from anybody |
| `InsurancePolicies.ParametricReplay` | stellar-insured-contracts/contracts/insurance/src/insurance_impl.rs:1164-1193 | A claim approved on submission uses up nothing: the same submission, nonce and evidence included, is accepted again later if and only if its amount is still covered after the payout, the policy has not run out, the payout is past the cooldown and the pool can pay once more |
| `InsurancePolicies.ApprovalPays` | stellar-insured-contracts/contracts/insurance/src/insurance_impl.rs:1512-1532 | Approving an open claim that the pool can pay adds its payout to its policy and takes it out of the pool; the policy stays within its coverage if and only if the payout fits what was left |
| `InsurancePolicies.CoverageCanBeExceeded` | stellar-insured-contracts/contracts/insurance/src/insurance_impl.rs:1247-1320 | Two open claims on a policy are both paid, and together they pass its coverage if and only if their payouts do |
| `InsurancePolicies.FullClaimsExceedCoverage` | stellar-insured-contracts/contracts/insurance/src/insurance_impl.rs:1247-1320 | On a policy as the contract sells it, with its deductible, two open claims for the whole coverage are paid twice the coverage less the deductible |
| `InsurancePolicies.EveryRunStaysWithinCoverage` | stellar-insured-contracts/contracts/insurance/src/insurance_impl.rs:2783-2788 | A policy ends a run within its coverage if and only if no approval of the run was given for more than was left at that moment, which the assessor could check |
| `InsurancePolicies.HandleSteps` | stellar-insured-contracts/contracts/insurance/src/insurance_impl.rs:2747-2808 | Every message leaves the terms of every policy alone, adds to its total claimed exactly what it pays on it, and never takes a renewed policy back |
| `InsurancePolicies.RenewedIsATrap` | stellar-insured-contracts/contracts/insurance/src/insurance_impl.rs:222-240 | Once renewed, a policy keeps its holder for good and, in every continuation, files no claim, is not cancelled, sold or expired by anybody, and while it is renewed its pool counts it as active |
| `InsuranceRecoveries.RecoveryIsBookedOnce` | stellar-insured-contracts/contracts/insurance/src/insurance_impl.rs:2811-2847 | A reinsurance recovery is booked on the first agreement that contributes, within its limit and above its retention, and on no other; with none nothing is booked |
| `InsuranceRecoveries.EveryRunBooksRecoveries` | stellar-insured-contracts/contracts/insurance/src/insurance_impl.rs:2811-2847 | In every run the agreements together hold exactly the recoveries of the accepted messages, those of unpaid batch approvals included and those of reverted reviews not |
| `InsuranceRecoveries.PayoutKeepsLimits` | stellar-insured-contracts/contracts/insurance/src/insurance_impl.rs:2818-2843 | A payout leaves every agreement within its limit if and only if the first that contributes has its recovery left |
| `InsuranceRecoveries.EveryRunStaysWithinLimits` | stellar-insured-contracts/contracts/insurance/src/insurance_impl.rs:2818-2843 | Any agreement ends any run within its limit if and only if no message booked more on it than was left, which its sender could tell from the storage beforehand |
| `InsuranceRecoveries.LimitIsPerPayout` | stellar-insured-contracts/contracts/insurance/src/insurance_impl.rs:2828-2833 | What was recovered before is not consulted: two approvals book both their recoveries on an agreement and pass what it had left if and only if their sum does |
| `InsuranceRecoveries.ApprovalIsPaid` | stellar-insured-contracts/contracts/insurance/src/insurance_impl.rs:1512-1532 | An approved claim becomes paid if and only if its payout is positive and in the pool; otherwise it stays approved and unpaid, except that a review on its own is undone when the pool is short |
| `InsuranceRecoveries.EveryRunBoundsRecoveries` | stellar-insured-contracts/contracts/insurance/src/insurance_impl.rs:2747-2847 | In every run the recoveries together stay within the claims paid plus the approvals left unpaid |
| `InsuranceRecoveries.FailedPayouts` | stellar-insured-contracts/contracts/insurance/src/insurance_impl.rs:1461-1488 | When the pool is short, a single review is undone, while the same review in a batch keeps approval and recovery and pays nothing |
| `InsuranceExamples.FullClaimsRun` | stellar-insured-contracts/contracts/insurance/src/insurance_impl.rs:1247-1320 | A run from a new contract in which two claims for the whole coverage are both paid: the policy ends beyond its coverage and the reinsurance beyond its limit |
| `InsuranceExamples.ReplayRun` | stellar-insured-contracts/contracts/insurance/src/insurance_impl.rs:1164-1193 | A run in which one and the same submission is accepted and paid twice |
| `InsuranceExamples.SaturatedRun` | stellar-insured-contracts/contracts/insurance/src/insurance_impl.rs:166-172 | A run in which a deposit stores more reward debt than was earned |
| `Rewards.ProRata` | stellar-insured-contracts/contracts/insurance/src/insurance_impl.rs:2658-2667 | A premium share raises a stake's pending reward by its pro-rata part, to within one unit above and one unit plus stake over precision below |
| `Rewards.DepositDust` | stellar-insured-contracts/contracts/insurance/src/insurance_impl.rs:166-172 | A deposit adds exactly the scaled remainder of its debt increment to the potential: it is free of dust if and only if amount times index is a multiple of the precision |
| `Rewards.ResyncDust` | stellar-insured-contracts/contracts/insurance/src/insurance_impl.rs:410-428 | Resynchronising the debt while paying the pending reward swaps the old stake's remainder for the new one's |
| `Rewards.DustIsReal` | stellar-insured-contracts/contracts/insurance/src/insurance_impl.rs:166-172 | The bound without an allowance for rounding is false: one unit of premium, two units pending |
| `Rewards.DepositClips` | stellar-insured-contracts/contracts/insurance/src/insurance_impl.rs:166-172 | A deposit stores more debt than was earned exactly when it fails that check |
| `Rewards.SaturatedDepositClips` | stellar-insured-contracts/contracts/insurance/src/insurance_impl.rs:166-172 | The check can fail: at a saturated index two deposits of one unit store more debt than two units earned |
| `Rewards.VestingTelescopes` | stellar-insured-contracts/contracts/insurance/src/insurance_impl.rs:636-664 | Claims spread over time in any way pay, by the last successful one past the cliff, exactly the linear share of the schedule less what had been claimed before, on any running schedule |
| `Rewards.UnscheduledClaimRepays` | stellar-insured-contracts/contracts/insurance/src/insurance_impl.rs:605-612 | With vesting switched off a claim pays the whole total: more than what is outstanding if and only if something was claimed before |
| `Rewards.WithdrawalRestartsSchedule` | stellar-insured-contracts/contracts/insurance/src/insurance_impl.rs:373-403 | A withdrawal with rewards pending restarts the schedule first: its penalty is taken from the whole vesting total, vested or not, and the rest vests from then on |
| `Rewards.WithdrawUndoesDeposit` | stellar-insured-contracts/contracts/insurance/src/insurance_impl.rs:128-203 | A new provider's deposit withdrawn at once leaves all pools, providers and lists as they were, with no reward and no penalty |
| `Rewards.FullExitForfeitsVesting` | stellar-insured-contracts/contracts/insurance/src/insurance_impl.rs:431-441 | Withdrawing the whole stake, and only that, removes the provider, whose next vested claim is refused |
| `Rewards.QuoteIsWhatClaimPays` | stellar-insured-contracts/contracts/insurance/src/insurance_impl.rs:698-710 | The quote of pending rewards is what a claim at any time pays or moves, zero exactly when the claim reports nothing, and zero after an accepted claim |
| `Solvency.RewardsBacked` | stellar-insured-contracts/contracts/insurance/src/insurance_impl.rs:2629-2667 | The potential argument: the invariant of one pool bounds rewards handed out and pending, strictly below one unit of dust per stake change |
| `Solvency.PoolSolvent` | stellar-insured-contracts/contracts/insurance/src/insurance_impl.rs:399-428 | The invariant of one pool implies that it covers its stakes, pending rewards and vesting |
| `Solvency.DepositKeeps` | stellar-insured-contracts/contracts/insurance/src/insurance_impl.rs:128-203 | Every deposit, accepted or refused, keeps the pool, vesting and listing invariant with its receipt posted |
| `Solvency.WithdrawKeeps` | stellar-insured-contracts/contracts/insurance/src/insurance_impl.rs:338-459 | So does every withdrawal, through both vesting modes, penalties and exits |
| `Solvency.ClaimRewardsKeeps` | stellar-insured-contracts/contracts/insurance/src/insurance_impl.rs:464-533 | So does every reward claim, paid out or moved into vesting |
| `Solvency.ReinvestKeeps` | stellar-insured-contracts/contracts/insurance/src/insurance_impl.rs:537-580 | So does every reinvestment |
| `Solvency.ClaimVestedKeeps` | stellar-insured-contracts/contracts/insurance/src/insurance_impl.rs:585-681 | So does every vested claim, scheduled or not |
| `Solvency.PremiumKeeps` | stellar-insured-contracts/contracts/insurance/src/insurance_impl.rs:909-912 | So does every premium share credited to a pool |
| `Solvency.PayClaimKeeps` | stellar-insured-contracts/contracts/insurance/src/insurance_impl.rs:2775-2780 | So does every claim payment |
| `InsuranceRuns.HandleGood` | stellar-insured-contracts/contracts/insurance/src/insurance_impl.rs:831-973 | Every message of the contract keeps storage and ledger in agreement |
| `InsuranceRuns.RunGood` | stellar-insured-contracts/contracts/insurance/src/insurance_impl.rs:4-57 | So does every run from a new contract |
| `InsuranceContract.PropertyInsurance.constructor` | stellar-insured-contracts/contracts/insurance/src/insurance_impl.rs:4-57 | A new contract is empty, with its deployer as admin |
| `InsuranceContract.PropertyInsurance.CreateRiskPool` | stellar-insured-contracts/contracts/insurance/src/insurance_impl.rs:69-124 | Creates a numbered pool or refuses bad parameters, and changes nothing else |
| `InsuranceContract.PropertyInsurance.ConfigurePoolVesting` | stellar-insured-contracts/contracts/insurance/src/insurance_impl.rs:268-291 | Sets a consistent schedule or refuses it |
| `InsuranceContract.PropertyInsurance.DepositLiquidity` | stellar-insured-contracts/contracts/insurance/src/insurance_impl.rs:128-203 | The in-place update is the deposit function on pools, providers and lists |
| `InsuranceContract.PropertyInsurance.WithdrawLiquidity` | stellar-insured-contracts/contracts/insurance/src/insurance_impl.rs:338-459 | The in-place update is the withdrawal function |
| `InsuranceContract.PropertyInsurance.ClaimRewards` | stellar-insured-contracts/contracts/insurance/src/insurance_impl.rs:464-533 | The in-place update is the reward claim function |
| `InsuranceContract.PropertyInsurance.ReinvestRewards` | stellar-insured-contracts/contracts/insurance/src/insurance_impl.rs:537-580 | The in-place update is the reinvestment function |
| `InsuranceContract.PropertyInsurance.ClaimVestedRewards` | stellar-insured-contracts/contracts/insurance/src/insurance_impl.rs:585-681 | The in-place update is the vested claim function |
| `InsuranceContract.PropertyInsurance.GetPendingRewards` | stellar-insured-contracts/contracts/insurance/src/insurance_impl.rs:698-710 | Answers what a reward claim by that provider at any time would pay or move; zero for an unknown pool or provider |
| `InsuranceContract.PropertyInsurance.CreatePolicy` | stellar-insured-contracts/contracts/insurance/src/insurance_impl.rs:831-973 | Underwrites and issues the policy, indexes it and mints its token, or changes nothing |
| `InsuranceContract.PropertyInsurance.EnrolPolicy` | stellar-insured-contracts/contracts/insurance/src/insurance_impl.rs:933-947 | Numbers the policy and lists it by holder and by property |
| `InsuranceContract.PropertyInsurance.MintToken` | stellar-insured-contracts/contracts/insurance/src/insurance_impl.rs:2715-2744 | Mints the next token for a policy |
| `InsuranceContract.PropertyInsurance.RenewPolicy` | stellar-insured-contracts/contracts/insurance/src/insurance_impl.rs:208-251 | Extends a policy and credits the pool |
| `InsuranceContract.PropertyInsurance.CancelPolicy` | stellar-insured-contracts/contracts/insurance/src/insurance_impl.rs:1009-1047 | Cancels an active policy for its holder or the admin |
| `InsuranceContract.PropertyInsurance.ExpirePolicies` | stellar-insured-contracts/contracts/insurance/src/insurance_impl.rs:297-328 | The scanning loop computes the recursive scan |
| `InsuranceContract.PropertyInsurance.SubmitClaim` | stellar-insured-contracts/contracts/insurance/src/insurance_impl.rs:1056-1227 | Files the claim and its protections, or reviews it at once for the parametric test event, rolling back when that fails |
| `InsuranceContract.PropertyInsurance.ProcessClaim` | stellar-insured-contracts/contracts/insurance/src/insurance_impl.rs:1247-1320 | Reviews and pays a claim; a failed payout rolls everything back |
| `InsuranceContract.PropertyInsurance.ProcessSingleClaim` | stellar-insured-contracts/contracts/insurance/src/insurance_impl.rs:1461-1488 | Reviews one claim of a batch; a failed payout leaves the approval and a booked recovery in place |
| `InsuranceContract.PropertyInsurance.ProcessClaimInner` | stellar-insured-contracts/contracts/insurance/src/insurance_impl.rs:1491-1555 | Stores the decision before it pays |
| `InsuranceContract.PropertyInsurance.ExecutePayout` | stellar-insured-contracts/contracts/insurance/src/insurance_impl.rs:2747-2808 | Books a recovery, then pays from the pool or reports that funds are short |
| `InsuranceContract.PropertyInsurance.TryReinsuranceRecovery` | stellar-insured-contracts/contracts/insurance/src/insurance_impl.rs:2811-2847 | The loop books the first contributing agreement and no other |
| `InsuranceContract.PropertyInsurance.RegisterReinsurance` | stellar-insured-contracts/contracts/insurance/src/insurance_impl.rs:1878-1921 | Registers a checked agreement |
| `InsuranceContract.PropertyInsurance.ListTokenForSale` | stellar-insured-contracts/contracts/insurance/src/insurance_impl.rs:1929-1958 | Puts an owner's token on the market once |
| `InsuranceContract.PropertyInsurance.PurchaseToken` | stellar-insured-contracts/contracts/insurance/src/insurance_impl.rs:1962-2020 | Moves policy and token to the buyer and off the market |
| `FeesTheorems.FeeFollowsDemand` | stellar-insured-contracts/contracts/fees/src/lib.rs:271-290 | A fee is quoted exactly when the bounds are in order, lies between them and never falls when congestion or demand rises |
| `FeesTheorems.SurchargeMeans` | stellar-insured-contracts/contracts/fees/src/lib.rs:271-290 | The multiplier is exactly 100 percent plus a fiftieth of a basis point per point of congestion and sensitivity, plus demand up to half; 32-bit inputs never saturate it |
| `FeesTheorems.SurchargeIsCapped` | stellar-insured-contracts/contracts/fees/src/lib.rs:271-290 | The price stays within 152 percent of the base fee for every demand if and only if congestion times sensitivity adds at most two percent |
| `FeesTheorems.SensitivityIsUnchecked` | stellar-insured-contracts/contracts/fees/src/lib.rs:433-450 | The admin may install a sensitivity that triples the price under full congestion |
| `FeesTheorems.EveryRunKeepsDefaultSettings` | stellar-insured-contracts/contracts/fees/src/lib.rs:295-326 | No message changes sensitivity, demand or bounds of the default configuration, so its own price stays within 106.6 percent of the base fee |
| `FeesTheorems.AdjustmentKeepsBounds` | stellar-insured-contracts/contracts/fees/src/lib.rs:402-429 | An automatic adjustment of a base fee within its bounds keeps it there if and only if congestion is at most 70 or the minimum is at most a hundredth of the largest balance |
| `FeesTheorems.CongestedAdjustment` | stellar-insured-contracts/contracts/fees/src/lib.rs:402-429 | With a larger minimum, a hundred recorded fees and one adjustment push the base fee below it |
| `FeesTheorems.BaseFeeStaysInBounds` | stellar-insured-contracts/contracts/fees/src/lib.rs:402-429 | A base fee that starts within its bounds stays there in every run if and only if the minimum is at most a hundredth of the largest balance |
| `FeesTheorems.EveryRunConservesFees` | stellar-insured-contracts/contracts/fees/src/lib.rs:636-665 | After any run whose fees fit: collected = treasury + distributed + dropped; distributed = pending + claimed = the sum of the reward records |
| `FeesTheorems.DistributionIsFair` | stellar-insured-contracts/contracts/fees/src/lib.rs:636-665 | A distribution credits every validator equally and nobody else, in total between the validators' share less their number minus one and that share, and empties the treasury whatever the treasury's own share is |
| `FeesTheorems.EveryRunEnumeratesValidators` | stellar-insured-contracts/contracts/fees/src/lib.rs:580-609 | The validator list has no duplicates and is exactly the validator set |
| `FeesTheorems.EveryAuctionStandsAtItsHighestBid` | stellar-insured-contracts/contracts/fees/src/lib.rs:495-533 | In any run an auction's current bid is the maximum of its recorded bids, held by the current bidder alone, at least the minimum, and every accepted bid beat all earlier ones |
| `FeesTheorems.WinnerOutbidEverybody` | stellar-insured-contracts/contracts/fees/src/lib.rs:537-562 | Settling names the author of the highest bid ever accepted, and needs a bid |
| `FeesTheorems.SettledAuctionsAreFrozen` | stellar-insured-contracts/contracts/fees/src/lib.rs:537-562 | Neither a settled auction nor its bids change in any continuation of the run |
| `FeeManagerContract.FeeManager.CalculateFee` | stellar-insured-contracts/contracts/fees/src/lib.rs:368-373 | Quotes from the override or default configuration, the congestion window and demand |
| `FeeManagerContract.FeeManager.RecordFeeCollected` | stellar-insured-contracts/contracts/fees/src/lib.rs:377-396 | Counts the operation and books the fee |
| `FeeManagerContract.FeeManager.CollectFee` | stellar-insured-contracts/contracts/fees/src/lib.rs:813-834 | Books a fee covered by the transferred value; the quote only matters when it fails |
| `FeeManagerContract.FeeManager.UpdateFeeParams` | stellar-insured-contracts/contracts/fees/src/lib.rs:402-429 | Adjusts the base fee by congestion |
| `FeeManagerContract.FeeManager.CreatePremiumAuction` | stellar-insured-contracts/contracts/fees/src/lib.rs:456-491 | Charges the quote and opens a numbered auction |
| `FeeManagerContract.FeeManager.PlaceBid` | stellar-insured-contracts/contracts/fees/src/lib.rs:495-533 | Accepts only a bid above the current one in an open auction |
| `FeeManagerContract.FeeManager.SettleAuction` | stellar-insured-contracts/contracts/fees/src/lib.rs:537-562 | Settles an ended auction with a bidder, once |
| `FeeManagerContract.FeeManager.AddValidator` | stellar-insured-contracts/contracts/fees/src/lib.rs:580-594 | Adds a validator to set and list unless present |
| `FeeManagerContract.FeeManager.RemoveValidator` | stellar-insured-contracts/contracts/fees/src/lib.rs:598-609 | Removes a validator from set and list |
| `FeeManagerContract.FeeManager.SetDistributionRates` | stellar-insured-contracts/contracts/fees/src/lib.rs:613-632 | Refuses rates above 100 percent together |
| `FeeManagerContract.FeeManager.DistributeFees` | stellar-insured-contracts/contracts/fees/src/lib.rs:636-665 | The distribution as specified, with its loop |
| `FeeManagerContract.FeeManager.CreditList` | stellar-insured-contracts/contracts/fees/src/lib.rs:648-661 | The loop over the list credits each entry once, in order |
| `FeeManagerContract.FeeManager.ClaimRewards` | stellar-insured-contracts/contracts/fees/src/lib.rs:683-697 | Pays out and clears the caller's pending reward |
| `BridgeTheorems.EveryRunBoundsExecutions` | stellar-insured-contracts/contracts/bridge/src/lib.rs:204-274 | In any run signatures are distinct, a locked request holds enough of them, and executions since the last retry are at most the signatures from the required number on |
| `BridgeTheorems.OneMoreApprovalExecutes` | stellar-insured-contracts/contracts/bridge/src/lib.rs:185-224 | Signing ignores the status: one further operator's approval makes a completed or rejected request executable |
| `BridgeTheorems.OnlyAnApprovalLocks` | stellar-insured-contracts/contracts/bridge/src/lib.rs:204-214 | A request becomes locked by an approval that reaches the required number, and by nothing else |
| `BridgeTheorems.EveryRunKeepsTheLatestHistory` | stellar-insured-contracts/contracts/bridge/src/lib.rs:247-291 | A sender's stored history is the last fifty of everything it executed, with rising ids, each entry a copy of its request; the counter is the number of executions |
| `BridgeTheorems.EveryRunCountsRequests` | stellar-insured-contracts/contracts/bridge/src/lib.rs:129-175 | A sender's nonce is the number of its requests and the request counter is the sum of all nonces |
| `BridgeTheorems.EveryRunCountsRejections` | stellar-insured-contracts/contracts/bridge/src/lib.rs:204-214 | Rejections count towards the required number: in any run a locked or completed request has one approval for sure, and the required number of them if and only if its rejections leave room for it |
| `BridgeTheorems.RejectedRequestExecutes` | stellar-insured-contracts/contracts/bridge/src/lib.rs:185-274 | A run in which a request that needs two signatures executes on one rejection and one approval |
| `BridgeTheorems.EveryRunBoundsOperators` | stellar-insured-contracts/contracts/bridge/src/lib.rs:362-408 | Operators are distinct and at most ten |
| `BridgeContract.PropertyBridge.constructor` | stellar-insured-contracts/contracts/bridge/src/lib.rs:29-105 | A checked configuration, unpaused, with the admin as only operator |
| `BridgeContract.PropertyBridge.InitiateBridgeMultisig` | stellar-insured-contracts/contracts/bridge/src/lib.rs:107-183 | Files a checked request under the next number and nonce |
| `BridgeContract.PropertyBridge.SignBridgeRequest` | stellar-insured-contracts/contracts/bridge/src/lib.rs:185-224 | Records one signature per operator and locks or fails the request |
| `BridgeContract.PropertyBridge.ExecuteBridge` | stellar-insured-contracts/contracts/bridge/src/lib.rs:226-297 | Completes a locked request and records the transaction |
| `BridgeContract.PropertyBridge.AppendHistory` | stellar-insured-contracts/contracts/bridge/src/lib.rs:278-291 | Shifts a full history before appending |
| `BridgeContract.PropertyBridge.RecoverFailedBridge` | stellar-insured-contracts/contracts/bridge/src/lib.rs:299-344 | Retries or closes a failed request |
| `BridgeContract.PropertyBridge.SetPause` | stellar-insured-contracts/contracts/bridge/src/lib.rs:346-360 | Sets the pause flag for the admin |
| `BridgeContract.PropertyBridge.AddOperator` | stellar-insured-contracts/contracts/bridge/src/lib.rs:362-385 | Adds an operator unless present or full |
| `BridgeContract.PropertyBridge.RemoveOperator` | stellar-insured-contracts/contracts/bridge/src/lib.rs:387-408 | Removes an operator |
| `BridgeContract.OthersThan` | stellar-insured-contracts/contracts/bridge/src/lib.rs:394-399 | The loop builds the list without one operator, order kept |
| `EscrowTheorems.EveryRunCountsDistinctSigners` | stellar-insured-contracts/contracts/escrow/src/lib.rs:223-267 | The approval count is the number of distinct signers on record, all of them participants |
| `EscrowTheorems.EveryRunConservesDeposits` | stellar-insured-contracts/contracts/escrow/src/lib.rs:135-221 | Deposits are held or were paid out; an escrow pays at most once, exactly the agreed amount, and with the required number of distinct approvals |
| `EscrowTheorems.ReleaseIsReachable` | stellar-insured-contracts/contracts/escrow/src/lib.rs:81-124 | In every reachable state an unreleased escrow can still be released, on a clock that goes on from any moment, if and only if its signer list holds the required number of different accounts; creation checks only the length of the list |
| `EscrowTheorems.SignersSuffice` | stellar-insured-contracts/contracts/escrow/src/lib.rs:175-221 | The explicit plan: unpause, top up, let everyone sign, release once the time lock is over, starting at any moment |
| `EscrowTheorems.ReleaseNeedsSigners` | stellar-insured-contracts/contracts/escrow/src/lib.rs:208-215 | No run releases an escrow with too few different signers |
| `EscrowContract.AdvancedEscrow.CreateEscrowAdvanced` | stellar-insured-contracts/contracts/escrow/src/lib.rs:53-133 | Opens a checked escrow with its signer set |
| `EscrowContract.AdvancedEscrow.DepositFunds` | stellar-insured-contracts/contracts/escrow/src/lib.rs:135-173 | Deposits up to the agreed amount and activates a full escrow |
| `EscrowContract.AdvancedEscrow.ReleaseFunds` | stellar-insured-contracts/contracts/escrow/src/lib.rs:175-221 | Releases an active escrow past its lock with enough approvals |
| `EscrowContract.AdvancedEscrow.SignApproval` | stellar-insured-contracts/contracts/escrow/src/lib.rs:223-267 | Counts one approval per signer and kind |
| `EscrowContract.AdvancedEscrow.SetPause` | stellar-insured-contracts/contracts/escrow/src/lib.rs:40-51 | Sets the pause flag for the admin |
| `EscrowContract.AllNonZero` | stellar-insured-contracts/contracts/escrow/src/validation.rs:21-25 | The loop over participants finds a zero account exactly when there is one |
| `GovernanceTheorems.EveryRunTalliesTheRecords` | stellar-insured-contracts/contracts/governance/src/lib.rs:278-306 | In any run both tallies are the sums of the vote records, modulo 2^128 |
| `GovernanceTheorems.EveryRunExecutesOnce` | stellar-insured-contracts/contracts/governance/src/lib.rs:330-397 | On a clock that does not go back, a proposal executes at most once, finalized and with its threshold met, and that execution dispatches its filed action once |
| `GovernanceTheorems.FinalizedTalliesAreFrozen` | stellar-insured-contracts/contracts/governance/src/lib.rs:314-328 | After finalization neither tallies nor voters change in any continuation of the run |
| `GovernanceTheorems.PassingMeans` | stellar-insured-contracts/contracts/governance/src/lib.rs:341-344 | The exact meaning of the threshold test, for positive, zero and negative totals |
| `GovernanceTheorems.PassingIsAMajority` | stellar-insured-contracts/contracts/governance/src/lib.rs:341-344 | With non-negative tallies it asks for the promised share of a non-empty vote, and nothing else |
| `GovernanceTheorems.EveryExecutedProposalWon` | stellar-insured-contracts/contracts/governance/src/lib.rs:330-397 | When no recorded weight is negative and nothing wraps, an executed proposal had the promised share |
| `GovernanceTheorems.NegativeWeightsPass` | stellar-insured-contracts/contracts/governance/src/lib.rs:289-297 | A single negative yes vote passes a 51 percent threshold |
| `GovernanceTheorems.NegativeVoteExecutes` | stellar-insured-contracts/contracts/governance/src/lib.rs:278-397 | A run, for any negative weight, in which the proposal with that one vote executes |
| `GovernanceContract.GovernanceDao.CreateProposal` | stellar-insured-contracts/contracts/governance/src/lib.rs:98-137 | Files a numbered proposal without an action |
| `GovernanceContract.GovernanceDao.CreateSlashingProposal` | stellar-insured-contracts/contracts/governance/src/lib.rs:139-179 | Stores the same; the target is only announced |
| `GovernanceContract.GovernanceDao.CreateClaimApprovalProposal` | stellar-insured-contracts/contracts/governance/src/lib.rs:182-227 | Files a proposal with a claim to approve |
| `GovernanceContract.GovernanceDao.CreateFundAllocationProposal` | stellar-insured-contracts/contracts/governance/src/lib.rs:230-276 | Files a proposal with funds to allocate |
| `GovernanceContract.GovernanceDao.CastVote` | stellar-insured-contracts/contracts/governance/src/lib.rs:278-312 | One vote per account before the deadline |
| `GovernanceContract.GovernanceDao.FinalizeProposal` | stellar-insured-contracts/contracts/governance/src/lib.rs:314-328 | Finalizes after the deadline |
| `GovernanceContract.GovernanceDao.ExecuteProposal` | stellar-insured-contracts/contracts/governance/src/lib.rs:330-397 | Executes and dispatches, or fails and changes nothing |
| `GovernanceContract.GovernanceDao.GetActiveProposals` | stellar-insured-contracts/contracts/governance/src/lib.rs:410-422 | The loop lists exactly the open proposals, in order |
| `ClaimsTheorems.EveryRunLocksTheOpenClaim` | stellar-insured-contracts/contracts/claims/src/lib.rs:85-102 | In any run the lock entry of a policy is exactly what a full scan finds: its one open claim, or none |
| `ClaimsTheorems.EveryRunBacksClaims` | stellar-insured-contracts/contracts/claims/src/lib.rs:74-99 | Every claim is positive, within coverage, the holder's, and was filed while the registry called its policy active, at the time it carries |
| `ClaimsTheorems.EveryRunPaysSettledClaimsOnce` | stellar-insured-contracts/contracts/claims/src/lib.rs:173-217 | Settled claims were paid once, others never, and the pool paid the sum of the settled amounts |
| `ClaimsTheorems.EveryRunStaysCovered` | stellar-insured-contracts/contracts/claims/src/lib.rs:78-102 | In any run what was settled on a policy stays within its coverage if and only if no settlement was for more than was left |
| `ClaimsTheorems.CoverageIsSettledTwice` | stellar-insured-contracts/contracts/claims/src/lib.rs:173-217 | A run, for any coverage, in which one policy is settled in full twice |
| `ClaimsTheorems.LapsedPoliciesTakeNoClaims` | stellar-insured-contracts/contracts/policy/src/lib.rs:101-178 | On a clock that does not go back, a policy that is not active never is again in any continuation, and no claim is ever added to it |
| `ClaimsTheorems.StepStaysLapsed` | stellar-insured-contracts/contracts/claims/src/lib.rs:54-68 | One step of the above; a submission on such a policy is refused |
| `ClaimsContract.PolicyContract.IssuePolicy` | stellar-insured-contracts/contracts/policy/src/lib.rs:49-90 | Issues a numbered policy for the admin |
| `ClaimsContract.PolicyContract.IsActive` | stellar-insured-contracts/contracts/policy/src/lib.rs:101-110 | Answers status and expiry, or that there is no policy |
| `ClaimsContract.PolicyContract.RenewPolicy` | stellar-insured-contracts/contracts/policy/src/lib.rs:112-137 | Extends a policy in force |
| `ClaimsContract.PolicyContract.CancelPolicy` | stellar-insured-contracts/contracts/policy/src/lib.rs:139-158 | Cancels for the holder before expiry |
| `ClaimsContract.PolicyContract.ExpirePolicy` | stellar-insured-contracts/contracts/policy/src/lib.rs:160-178 | Expires at or after the expiry time |
| `ClaimsContract.ClaimsDesk.SubmitClaim` | stellar-insured-contracts/contracts/claims/src/lib.rs:54-111 | Asks the policy contract, then files the claim and takes the lock |
| `ClaimsContract.ClaimsDesk.StartReview` | stellar-insured-contracts/contracts/claims/src/lib.rs:113-130 | Submitted to under review |
| `ClaimsContract.ClaimsDesk.ApproveClaim` | stellar-insured-contracts/contracts/claims/src/lib.rs:132-149 | Under review to approved |
| `ClaimsContract.ClaimsDesk.RejectClaim` | stellar-insured-contracts/contracts/claims/src/lib.rs:151-171 | Rejects and lifts the lock |
| `ClaimsContract.ClaimsDesk.SettleClaim` | stellar-insured-contracts/contracts/claims/src/lib.rs:173-217 | Pays once and lifts the lock |
| `DocumentsTheorems.EveryRunKeepsTheIndexes` | stellar-insured-contracts/contracts/ipfs-metadata/src/lib.rs:518-542 | In any run the content-id index and the documents name each other, and each property lists exactly its live documents, increasing |
| `DocumentsTheorems.EveryRunAccountsForPins` | stellar-insured-contracts/contracts/ipfs-metadata/src/lib.rs:560-651 | While accounts cannot overflow, a property's pinned size is that of its pinned documents plus what was reported while pinned, and the unpin guard never fires |
| `DocumentsTheorems.EveryRunHoldsWholeCids` | stellar-insured-contracts/contracts/ipfs-metadata/src/lib.rs:434-460 | In any run every registered content id has at least ten characters, and no version 0 id is the beginning of another registered id |
| `DocumentsTheorems.PinAddsUnlessItWraps` | stellar-insured-contracts/contracts/ipfs-metadata/src/lib.rs:578-596 | Pinning adds the document's size if and only if the sum fits in 64 bits |
| `DocumentsContract.IpfsMetadataRegistry.ValidateAndRegisterMetadata` | stellar-insured-contracts/contracts/ipfs-metadata/src/lib.rs:355-380 | Gives the caller full access to the property |
| `DocumentsContract.IpfsMetadataRegistry.RegisterIpfsDocument` | stellar-insured-contracts/contracts/ipfs-metadata/src/lib.rs:469-556 | Registers a checked document in all three maps |
| `DocumentsContract.IpfsMetadataRegistry.PinDocument` | stellar-insured-contracts/contracts/ipfs-metadata/src/lib.rs:560-606 | Pins within the quota |
| `DocumentsContract.IpfsMetadataRegistry.UnpinDocument` | stellar-insured-contracts/contracts/ipfs-metadata/src/lib.rs:610-651 | Unpins and subtracts |
| `DocumentsContract.IpfsMetadataRegistry.VerifyContentHash` | stellar-insured-contracts/contracts/ipfs-metadata/src/lib.rs:655-690 | Stamps a matching document |
| `DocumentsContract.IpfsMetadataRegistry.GrantAccess` | stellar-insured-contracts/contracts/ipfs-metadata/src/lib.rs:698-715 | Grants for the admin or a full-access account |
| `DocumentsContract.IpfsMetadataRegistry.RevokeAccess` | stellar-insured-contracts/contracts/ipfs-metadata/src/lib.rs:719-730 | Revokes likewise |
| `DocumentsContract.IpfsMetadataRegistry.UpdateValidationRules` | stellar-insured-contracts/contracts/ipfs-metadata/src/lib.rs:826-836 | Replaces the rules |
| `DocumentsContract.IpfsMetadataRegistry.AddAllowedMimeType` | stellar-insured-contracts/contracts/ipfs-metadata/src/lib.rs:840-856 | Adds a type once |
| `DocumentsContract.IpfsMetadataRegistry.ReportMaliciousFile` | stellar-insured-contracts/contracts/ipfs-metadata/src/lib.rs:860-898 | Removes a document from all indexes |
| `Rewards.NothingBeforeTheCliff` | stellar-insured-contracts/contracts/insurance/src/insurance_impl.rs:637-639 | Before the cliff is over a vested claim pays nothing and changes nothing |
| `Rewards.NoClaimsBeforeTheCliff` | stellar-insured-contracts/contracts/insurance/src/insurance_impl.rs:637-639 | Nor do any number of claims before it |
| `Rewards.VestedClaimPaysWhatIsDue` | stellar-insured-contracts/contracts/insurance/src/insurance_impl.rs:614-681 | One claim on a running schedule in full: nothing before the cliff, from then on the linear share not claimed yet, out of the pool and refused only when the pool is short; the record is cleared when all was paid |
| `Rewards.PenaltyIsOnTheUnvested` | stellar-insured-contracts/contracts/insurance/src/insurance_impl.rs:384-403 | A withdrawal with nothing pending is penalised on what is not due yet, and not at all on a fully vested schedule; start and claims of the schedule stay |
| `LiquidityRules.PoolRule` | stellar-insured-contracts/contracts/insurance/src/insurance_impl.rs:69-124 | When a pool can be created and how it starts |
| `LiquidityRules.ScheduleRule` | stellar-insured-contracts/contracts/insurance/src/insurance_impl.rs:268-291 | When a vesting schedule can be set, and that nothing else changes |
| `LiquidityRules.DepositRule` | stellar-insured-contracts/contracts/insurance/src/insurance_impl.rs:128-203 | When a deposit is accepted; stake, capital and available capital grow by it, the debt by what it would have earned so far, and rewards and vesting are untouched |
| `LiquidityRules.RewardRule` | stellar-insured-contracts/contracts/insurance/src/insurance_impl.rs:464-533 | When a reward claim is accepted; it pays all that is pending or moves it into a schedule that restarts now, and leaves nothing pending |
| `LiquidityRules.ReinvestmentRule` | stellar-insured-contracts/contracts/insurance/src/insurance_impl.rs:537-580 | All that is pending becomes stake and capital, though not available capital, and nothing stays pending |
| `LiquidityRules.WithdrawalRule` | stellar-insured-contracts/contracts/insurance/src/insurance_impl.rs:338-459 | A withdrawal takes the principal out of stake and capital, and principal and reward less penalty out of the available capital; the provider stays exactly while it keeps a stake, with nothing pending |
| `LiquidityRules.WithdrawalAccepted` | stellar-insured-contracts/contracts/insurance/src/insurance_impl.rs:338-408 | When a withdrawal is accepted, with and without vesting |
| `LiquidityRules.UnscheduledRule` | stellar-insured-contracts/contracts/insurance/src/insurance_impl.rs:604-633 | With vesting switched off: when a vested claim is accepted, and that it takes the whole total and clears the record |
| `LiquidityRules.UnstartedRule` | stellar-insured-contracts/contracts/insurance/src/insurance_impl.rs:632-634 | A schedule that starts at time zero never pays, and a withdrawal is penalised on all of it |
| `LiquidityRules.PremiumRule` | stellar-insured-contracts/contracts/insurance/src/insurance_impl.rs:2657-2667 | A premium share adds to premiums and available capital, and raises the index by its scaled share of a unit of stake |
| `InsuranceRules.AccessRule` | stellar-insured-contracts/contracts/insurance/src/insurance_impl.rs:69-77 | Who may set up pools and schedules, and deposit when |
| `InsuranceRules.PriceRule` | stellar-insured-contracts/contracts/insurance/src/insurance_impl.rs:777-823 | Premium, deductible and fee in plain arithmetic while the products fit, with the risk bands and kinds of coverage |
| `InsuranceRules.IssuingRule` | stellar-insured-contracts/contracts/insurance/src/insurance_impl.rs:887-973 | An accepted application issues one policy and one token on the terms asked for, ending as much later as asked |
| `InsuranceRules.RenewalRule` | stellar-insured-contracts/contracts/insurance/src/insurance_impl.rs:208-251 | Who can renew what; the policy ends that much later, its premium counts the payment, and nothing else of it and no other policy changes |
| `InsuranceRules.CancellationRule` | stellar-insured-contracts/contracts/insurance/src/insurance_impl.rs:1009-1047 | Who can cancel what; the pool counts one policy less |
| `InsuranceRules.ExpiryRule` | stellar-insured-contracts/contracts/insurance/src/insurance_impl.rs:297-328 | A scan takes off each pool's counter exactly the policies it ends there, and changes nothing else of the pools |
| `InsuranceRules.OverdueRule` | stellar-insured-contracts/contracts/insurance/src/insurance_impl.rs:308-322 | A scan ends active policies strictly after their end and no others, and without a limit all of them |
| `InsuranceRules.FilingRule` | stellar-insured-contracts/contracts/insurance/src/insurance_impl.rs:1139-1226 | An ordinary claim is filed pending under the next number, uses up nonce and evidence and starts the caller's cooldown; nothing is paid |
| `InsuranceRules.EvidenceMeans` | stellar-insured-contracts/contracts/insurance/src/insurance_impl.rs:1077-1096 | What evidence has to carry |
| `InsuranceRules.RejectionRule` | stellar-insured-contracts/contracts/insurance/src/insurance_impl.rs:1304-1319 | Who can reject what; the claim is then rejected, by the caller and now, and nothing else changes |
| `InsuranceRules.RejectionIsFinal` | stellar-insured-contracts/contracts/insurance/src/insurance_impl.rs:1505-1507 | After a rejection, in every continuation, no review of the claim is accepted from anybody and nothing is paid on it |
| `InsuranceRules.ApprovalAccess` | stellar-insured-contracts/contracts/insurance/src/insurance_impl.rs:1247-1320 | Who can approve what, on its own and in a batch |
| `InsuranceRules.ApprovalRule` | stellar-insured-contracts/contracts/insurance/src/insurance_impl.rs:1498-1532 | An approval records assessor, time and the amount less the deductible, and leaves all other claims alone |
| `InsuranceRules.PayoutRule` | stellar-insured-contracts/contracts/insurance/src/insurance_impl.rs:2747-2808 | A payout is added to its policy, which it may use up, and starts the property's cooldown |
| `InsuranceRules.RecoveryMeans` | stellar-insured-contracts/contracts/insurance/src/insurance_impl.rs:2818-2830 | What an agreement contributes to a payout and when |
| `InsuranceRules.AgreementRule` | stellar-insured-contracts/contracts/insurance/src/insurance_impl.rs:1878-1921 | When an agreement can be registered and how it starts |
| `InsuranceRules.ListingRule` | stellar-insured-contracts/contracts/insurance/src/insurance_impl.rs:1929-1958 | Who can list which token at which price |
| `InsuranceRules.PurchaseRule` | stellar-insured-contracts/contracts/insurance/src/insurance_impl.rs:1962-2020 | When a token is sold; policy and token are then the buyer's and off the market |
| `FeesRules.QuoteRule` | stellar-insured-contracts/contracts/fees/src/lib.rs:271-373 | The price of an operation in plain arithmetic while it fits, from its own or the default settings, the operations of the last hour and the demand charge |
| `FeesRules.CountingRule` | stellar-insured-contracts/contracts/fees/src/lib.rs:377-396 | An operation counts towards the last hour up to a hundred, and the first after an hour starts a new one |
| `FeesRules.CollectionRule` | stellar-insured-contracts/contracts/fees/src/lib.rs:813-834 | Recording books the fee for anybody; collecting needs a price and a transfer that covers the fee |
| `FeesRules.AdjustmentRule` | stellar-insured-contracts/contracts/fees/src/lib.rs:402-429 | Five percent up after a busy hour, five percent down after a quiet one, within the bounds, by the admin alone |
| `FeesRules.ConfigurationRule` | stellar-insured-contracts/contracts/fees/src/lib.rs:431-452 | The admin sets the price of one operation within ordered bounds |
| `FeesRules.ValidatorRule` | stellar-insured-contracts/contracts/fees/src/lib.rs:580-632 | The admin adds and removes validators, and divides at most the whole |
| `FeesRules.DistributionRule` | stellar-insured-contracts/contracts/fees/src/lib.rs:636-665 | What a distribution pays, drops and records, one equal reward per listed validator in order |
| `FeesRules.ClaimingRule` | stellar-insured-contracts/contracts/fees/src/lib.rs:683-697 | Everybody takes its whole pending reward, once |
| `FeesRules.OpeningRule` | stellar-insured-contracts/contracts/fees/src/lib.rs:456-491 | When an auction can be opened, on which terms, and that its price is booked |
| `FeesRules.BiddingRule` | stellar-insured-contracts/contracts/fees/src/lib.rs:495-533 | Which bids are accepted, and that they are recorded |
| `FeesRules.SettlingRule` | stellar-insured-contracts/contracts/fees/src/lib.rs:537-562 | Which auctions are settled, for whom and for what |
| `FeesRules.EveryRunStaysConfigured` | stellar-insured-contracts/contracts/fees/src/lib.rs:295-326 | In every run the admin is the creator, at most a hundred operations count and no more than the whole is divided |
| `BridgeRules.SetupRule` | stellar-insured-contracts/contracts/bridge/src/lib.rs:29-105 | Which configurations are accepted and how the bridge starts |
| `BridgeRules.OrderRule` | stellar-insured-contracts/contracts/bridge/src/lib.rs:107-183 | In every reachable state: which requests are filed, numbered by the sender's own requests, and on which terms |
| `BridgeRules.SigningRule` | stellar-insured-contracts/contracts/bridge/src/lib.rs:185-224 | Who signs what until when, and what that does to the status |
| `BridgeRules.ExecutionRule` | stellar-insured-contracts/contracts/bridge/src/lib.rs:226-297 | Exactly the locked requests execute; a copy with the time becomes the sender's latest transaction |
| `BridgeRules.RecoveryRule` | stellar-insured-contracts/contracts/bridge/src/lib.rs:299-344 | Exactly the failed requests are recovered; only a retry takes the signatures away |
| `BridgeRules.EveryRunKeepsTheSetup` | stellar-insured-contracts/contracts/bridge/src/lib.rs:346-408 | In every run admin and configuration are those of the setup, but for the pause flag |
| `EscrowRules.ReleaseRule` | stellar-insured-contracts/contracts/escrow/src/lib.rs:175-221 | In every reachable state a release is accepted if and only if the contract is not paused and the escrow is complete, past its time lock and approved by enough different signers; it pays the agreed amount |
| `EscrowRules.EveryPaymentIsDue` | stellar-insured-contracts/contracts/escrow/src/lib.rs:189-191 | No message of any run pays an escrow before its time lock, short of signers, or any amount but the agreed one |
| `EscrowRules.DepositRule` | stellar-insured-contracts/contracts/escrow/src/lib.rs:135-173 | A deposit is accepted until the agreed amount is reached, and completes the escrow when it reaches it |
| `EscrowRules.SignRule` | stellar-insured-contracts/contracts/escrow/src/lib.rs:223-267 | Each configured signer approves once per kind of approval |
| `EscrowRules.OpenRule` | stellar-insured-contracts/contracts/escrow/src/lib.rs:53-133 | In every reachable state: on which terms an escrow is opened, numbered by the buyer's own escrows, and how it starts |
| `EscrowRules.OnlyTheAdminPauses` | stellar-insured-contracts/contracts/escrow/src/lib.rs:40-51 | In every run the first admin and nobody else pauses and resumes |
| `GovernanceRules.FilingRule` | stellar-insured-contracts/contracts/governance/src/lib.rs:98-137 | A proposal is filed on the terms asked for, open for one voting period |
| `GovernanceRules.VotingRule` | stellar-insured-contracts/contracts/governance/src/lib.rs:278-312 | Who votes until when; a vote is put on record and adds its weight to its own side |
| `GovernanceRules.FinalizingRule` | stellar-insured-contracts/contracts/governance/src/lib.rs:314-328 | Anybody finalizes after the deadline and nobody before |
| `GovernanceRules.ExecutionRule` | stellar-insured-contracts/contracts/governance/src/lib.rs:330-397 | With tallies that are not negative and fit: which proposals execute, and that the action is used up |
| `GovernanceRules.OverflowRule` | stellar-insured-contracts/contracts/governance/src/lib.rs:341-344 | Execution panics exactly when the quotient of the threshold test does not fit |
| `GovernanceRules.VotesStay` | stellar-insured-contracts/contracts/governance/src/lib.rs:286-304 | In every continuation a vote stays on record as it was cast, and it was cast in time |
| `ClaimsRules.ActiveMeans` | stellar-insured-contracts/contracts/policy/src/lib.rs:101-110 | A policy covers while it is active or renewed and has not ended |
| `ClaimsRules.IssuingRule` | stellar-insured-contracts/contracts/policy/src/lib.rs:49-90 | The admin issues policies that start now |
| `ClaimsRules.RenewalRule` | stellar-insured-contracts/contracts/policy/src/lib.rs:112-137 | The holder renews an active policy, which ends that many days later |
| `ClaimsRules.EndingRule` | stellar-insured-contracts/contracts/policy/src/lib.rs:139-178 | The holder cancels until the end, anybody expires from then on |
| `ClaimsRules.SubmissionRule` | stellar-insured-contracts/contracts/claims/src/lib.rs:54-111 | In every reachable state: a claim is accepted from the holder of an active policy with no open claim, within its coverage, and is then the open claim |
| `ClaimsRules.ReviewRule` | stellar-insured-contracts/contracts/claims/src/lib.rs:113-171 | Who moves which claim on, and that only a rejection opens the policy for the next |
| `ClaimsRules.SettlementRule` | stellar-insured-contracts/contracts/claims/src/lib.rs:173-217 | Which claims are settled; the claimant gets the whole amount and the policy is free |
| `DocumentsRules.AccessRule` | stellar-insured-contracts/contracts/ipfs-metadata/src/lib.rs:698-730 | Full access is what granting and revoking take and what valid metadata gives |
| `DocumentsRules.CidsMean` | stellar-insured-contracts/contracts/ipfs-metadata/src/lib.rs:434-460 | Which content ids are well-formed |
| `DocumentsRules.RegistrationRule` | stellar-insured-contracts/contracts/ipfs-metadata/src/lib.rs:469-556 | In every reachable state: which documents are registered, under ids that name no live document and within the limits, and how they start |
| `DocumentsRules.PinningRule` | stellar-insured-contracts/contracts/ipfs-metadata/src/lib.rs:560-606 | Who pins what within the limit, and what it adds |
| `DocumentsRules.UnpinningRule` | stellar-insured-contracts/contracts/ipfs-metadata/src/lib.rs:610-651 | Who unpins what; in every run in which no account can overflow its size comes off the account |
| `DocumentsRules.WrappedAccountsStay` | stellar-insured-contracts/contracts/ipfs-metadata/src/lib.rs:633-651 | Unpinning leaves an account that wrapped below the document's size as it is |
| `DocumentsRules.VerificationRule` | stellar-insured-contracts/contracts/ipfs-metadata/src/lib.rs:655-690 | Who stamps what, given which hash |
| `DocumentsRules.ReportingRule` | stellar-insured-contracts/contracts/ipfs-metadata/src/lib.rs:860-898 | The admin removes a document, which frees its content id |
| `DocumentsRules.RulesRule` | stellar-insured-contracts/contracts/ipfs-metadata/src/lib.rs:826-856 | The admin alone sets the rules and lists a type once |

## Left out

- Token and native transfers, cross-contract calls and events. The ledger fields that go with them are
  kept; whether a call succeeds is a parameter where the code depends on it (`feePaid`, `accepted`,
  `pool`). A failing native transfer reverts like any other error and is not a separate branch.
- Admin and oracle setters of the insurance contract (roles, pause and its timelock, fee rate, cooldown,
  oracle, risk assessments): one message that installs any configuration with a fee rate of at most ten
  percent. Underwriting criteria and actuarial models, which no modelled message reads.
- `batch_approve_claims` and `batch_reject_claims` (1330-1457), `move_to_dispute` and the queries after it
  (2375-2452): damaged in the source. Their per-claim step is modelled.
- Evidence submission and verification after a claim, its costs and the IPFS checks around it.
- Policy and claim texts, metadata contents, risk levels, expiry of token listings, timestamps that
  nothing reads, and the bid timestamp of auctions.
- Calls on a contract before it is initialized, and initializing it twice.
- Bridge chain information, gas and version entries; transaction hashes are stood for by the number of
  the request they are the hash of.
- The outcome of `validate_metadata` is a parameter; string lengths count characters.
- The `fractional`, `oracle`, `ai-valuation`, `analytics`, `zk-compliance` and `compliance_registry`
  contracts, migrations and the SDK: mock or single-branch logic that would only add easy members.
- EveryRunConservesFees: asks that the fees collected fit 128 bits, since the counters saturate there.
- EveryRunAccountsForPins: asks for rules under which no pinned size can pass 64 bits; without them a pin
  can wrap, as PinAddsUnlessItWraps says.
