/** The liquidity side of the insurance contract: risk pools, their providers, and the
    fixed-point reward-per-share index that premiums feed. */
module Liquidity {
  import opened Common

  /** Fixed-point scale of `Pool.acc`. */
  const PRECISION: nat := 1_000_000_000_000_000_000

  const BPS: nat := 10_000

  datatype Error =
    | Unauthorized | PolicyNotFound | ClaimNotFound | PoolNotFound | PolicyExpired | PolicyInactive
    | InsufficientPremium | InsufficientPoolFunds | ClaimAlreadyProcessed | ClaimExceedsCoverage
    | InvalidParameters | TokenNotFound | CooldownPeriodActive | PropertyNotInsurable
    | ContractPaused | NonceAlreadyUsed | PremiumTooLow | EvidenceNonceEmpty
    | EvidenceInvalidUriScheme | EvidenceInvalidHashLength | ZeroAmount | InsufficientStake
    | InsufficientPoolLiquidity

  datatype Pool = Pool(
    totalCapital: nat,
    availableCapital: nat,
    premiumsCollected: nat,
    claimsPaid: nat,
    activePolicies: nat,
    maxCoverageRatio: nat,
    reinsuranceThreshold: nat,
    isActive: bool,
    totalStake: nat,
    acc: nat,
    cliff: nat,
    duration: nat,
    penaltyBps: nat)

  datatype Provider = Provider(
    stake: nat,
    rewardDebt: nat,
    depositedAt: nat,
    vestingTotal: nat,
    vestingClaimed: nat,
    vestingStart: nat)

  type Key = (nat, Address)

  type Providers = map<Key, Provider>

  datatype Liq = Liq(
    pools: map<nat, Pool>,
    poolCount: nat,
    providers: Providers,
    poolProviders: map<nat, seq<Address>>)

  /** What a successful message reports: its return value and the amounts of its event. */
  datatype Receipt =
    | Done(id: nat)
    | Deposited(pool: nat, amount: nat)
    | Withdrawn(pool: nat, who: Address, principal: nat, rewards: nat, moved: nat, penalty: nat)
    | RewardsPaid(pool: nat, amount: nat)
    | VestingStarted(pool: nat, who: Address, amount: nat)
    | Reinvested(pool: nat, amount: nat)
    | VestedPaid(pool: nat, who: Address, amount: nat, repaid: nat)
    | PremiumTaken(pool: nat, id: nat, share: nat, accrued: nat)
    | ClaimPaid(pool: nat, amount: nat)

  type Reply = Result<(Liq, Receipt), Error>

  // ---------------------------------------------------------------------------------------
  // Reward arithmetic
  // ---------------------------------------------------------------------------------------

  /** Rewards a stake has earned up to index `acc`; also the debt stored when it is synced. */
  function Earned(stake: nat, acc: nat): nat {
    SatMul(stake, acc) / PRECISION
  }

  function PendingReward(stake: nat, acc: nat, debt: nat): nat {
    SatSub(Earned(stake, acc), debt)
  }

  function AccrualStep(reward: nat, totalStake: nat): nat
    requires totalStake > 0
  {
    SatMul(reward, PRECISION) / totalStake
  }

  function Accrue(q: Pool, reward: nat): Pool {
    if reward == 0 || q.totalStake == 0 then q
    else q.(acc := SatAdd(q.acc, AccrualStep(reward, q.totalStake)))
  }

  /** The part of `total` released `elapsed` seconds after vesting started. */
  function Vested(total: nat, elapsed: nat, cliff: nat, duration: nat): nat
    requires duration > 0
  {
    if elapsed < cliff then 0
    else SatMul(total, if elapsed >= duration then duration else elapsed) / duration
  }

  // ---------------------------------------------------------------------------------------
  // Messages
  // ---------------------------------------------------------------------------------------

  const NO_PROVIDER: Provider := Provider(0, 0, 0, 0, 0, 0)

  function ProviderAt(ps: Providers, k: Key): Provider {
    if k in ps then ps[k] else NO_PROVIDER
  }

  function CreatePool(l: Liq, named: bool, maxCoverageRatio: nat, reinsuranceThreshold: nat): Reply {
    if !named || maxCoverageRatio == 0 || maxCoverageRatio > BPS || reinsuranceThreshold == 0 then
      Err(InvalidParameters)
    else
      var id := l.poolCount + 1;
      var q := Pool(0, 0, 0, 0, 0, maxCoverageRatio, reinsuranceThreshold, true, 0, 0, 0, 0, 0);
      Ok((l.(poolCount := id, pools := l.pools[id := q]), Done(id)))
  }

  function ConfigureVesting(l: Liq, p: nat, cliff: nat, duration: nat, penaltyBps: nat): Reply {
    if p !in l.pools then Err(PoolNotFound)
    else if duration == 0 && (cliff != 0 || penaltyBps != 0) then Err(InvalidParameters)
    else if duration != 0 && (cliff > duration || penaltyBps > BPS) then Err(InvalidParameters)
    else
      var q := l.pools[p].(cliff := cliff, duration := duration, penaltyBps := penaltyBps);
      Ok((l.(pools := l.pools[p := q]), Done(p)))
  }

  /** Stores a pool and one of its providers. */
  function Store(l: Liq, p: nat, a: Address, q: Pool, v: Provider): Liq {
    l.(pools := l.pools[p := q], providers := l.providers[(p, a) := v])
  }

  /** Stores a pool and drops one of its providers, who left with no stake. */
  function Drop(l: Liq, p: nat, a: Address, q: Pool): Liq {
    l.(pools := l.pools[p := q],
       providers := l.providers - {(p, a)},
       poolProviders := if p in l.poolProviders
                        then l.poolProviders[p := Without(l.poolProviders[p], a)]
                        else l.poolProviders)
  }

  function Enlist(l: Liq, p: nat, a: Address): Liq {
    if a in ListAt(l.poolProviders, p) then l
    else l.(poolProviders := l.poolProviders[p := ListAt(l.poolProviders, p) + [a]])
  }

  function Staked(q: Pool, v: Provider, amount: nat): (Pool, Provider) {
    (q.(totalStake := SatAdd(q.totalStake, amount),
        totalCapital := SatAdd(q.totalCapital, amount),
        availableCapital := SatAdd(q.availableCapital, amount)),
     v.(stake := v.stake + amount,
        rewardDebt := SatAdd(v.rewardDebt, SatMul(amount, q.acc) / PRECISION)))
  }

  function Deposit(l: Liq, p: nat, a: Address, amount: nat, now: nat): Reply {
    if amount == 0 then Err(ZeroAmount)
    else if p !in l.pools || !l.pools[p].isActive then Err(PoolNotFound)
    else
      var v := if (p, a) in l.providers then l.providers[(p, a)]
               else NO_PROVIDER.(depositedAt := now);
      if v.stake + amount > U128_MAX then Err(InvalidParameters)
      else
        var (q', v') := Staked(l.pools[p], v, amount);
        Ok((Enlist(Store(l, p, a, q', v'), p, a), Deposited(p, amount)))
  }

  /** Moves pending rewards into the vesting schedule, restarting it now. */
  function MoveToVesting(v: Provider, acc: nat, now: nat): Provider {
    v.(vestingTotal := SatAdd(v.vestingTotal, PendingReward(v.stake, acc, v.rewardDebt)),
       vestingStart := now,
       rewardDebt := Earned(v.stake, acc))
  }

  function Unvested(q: Pool, v: Provider, now: nat): nat
    requires q.duration > 0
  {
    SatSub(v.vestingTotal,
           if v.vestingStart > 0
           then Vested(v.vestingTotal, SatSub(now, v.vestingStart), q.cliff, q.duration)
           else 0)
  }

  /** What an early withdrawal takes from the provider's unvested rewards. */
  function Penalty(q: Pool, v: Provider, now: nat): nat
    requires q.duration > 0
  {
    if v.vestingTotal == 0 || q.penaltyBps == 0 then 0
    else SatMul(Unvested(q, v, now), q.penaltyBps) / BPS
  }

  /** Takes `amount` of principal out of a provider's stake and `outflow` out of the capital. */
  function Unstaked(q: Pool, v: Provider, amount: nat, outflow: nat): (Pool, Provider) {
    (q.(totalStake := SatSub(q.totalStake, amount),
        availableCapital := SatSub(q.availableCapital, outflow),
        totalCapital := SatSub(q.totalCapital, amount)),
     v.(stake := SatSub(v.stake, amount),
        rewardDebt := Earned(SatSub(v.stake, amount), q.acc)))
  }

  function Withdraw(l: Liq, p: nat, a: Address, amount: nat, now: nat): Reply {
    if amount == 0 then Err(ZeroAmount)
    else if p !in l.pools || !l.pools[p].isActive then Err(PoolNotFound)
    else if (p, a) !in l.providers || l.providers[(p, a)].stake < amount then Err(InsufficientStake)
    else
      var q, v := l.pools[p], l.providers[(p, a)];
      var pending := PendingReward(v.stake, q.acc, v.rewardDebt);
      if q.duration > 0 then
        var v1 := if pending > 0 then MoveToVesting(v, q.acc, now) else v;
        var penalty := Penalty(q, v1, now);
        var v2 := v1.(vestingTotal := SatSub(v1.vestingTotal, penalty));
        var q2 := q.(availableCapital := SatAdd(q.availableCapital, penalty));
        if q2.availableCapital < amount then Err(InsufficientPoolLiquidity)
        else
          var (q', v') := Unstaked(q2, v2, amount, amount);
          Ok((Settle(l, p, a, q', v'), Withdrawn(p, a, amount, 0, pending, penalty)))
      else if q.availableCapital < SatAdd(pending, amount) then Err(InsufficientPoolLiquidity)
      else
        var (q', v') := Unstaked(q, v, amount, SatAdd(pending, amount));
        Ok((Settle(l, p, a, q', v'), Withdrawn(p, a, amount, pending, 0, 0)))
  }

  function Settle(l: Liq, p: nat, a: Address, q: Pool, v: Provider): Liq {
    if v.stake == 0 then Drop(l, p, a, q) else Store(l, p, a, q, v)
  }

  function ClaimRewards(l: Liq, p: nat, a: Address, now: nat): Reply {
    if p !in l.pools || !l.pools[p].isActive then Err(PoolNotFound)
    else if (p, a) !in l.providers then Err(InsufficientStake)
    else
      var q, v := l.pools[p], l.providers[(p, a)];
      var pending := PendingReward(v.stake, q.acc, v.rewardDebt);
      if pending == 0 then Ok((l, Done(0)))
      else if q.duration > 0 then
        Ok((Store(l, p, a, q, MoveToVesting(v, q.acc, now)), VestingStarted(p, a, pending)))
      else if q.availableCapital < pending then Err(InsufficientPoolLiquidity)
      else
        Ok((Store(l, p, a, q.(availableCapital := SatSub(q.availableCapital, pending)),
                  v.(rewardDebt := Earned(v.stake, q.acc))),
            RewardsPaid(p, pending)))
  }

  function Reinvest(l: Liq, p: nat, a: Address): Reply {
    if p !in l.pools || !l.pools[p].isActive then Err(PoolNotFound)
    else if (p, a) !in l.providers then Err(InsufficientStake)
    else
      var q, v := l.pools[p], l.providers[(p, a)];
      var pending := PendingReward(v.stake, q.acc, v.rewardDebt);
      if pending == 0 then Ok((l, Done(0)))
      else
        var stake := SatAdd(v.stake, pending);
        Ok((Store(l, p, a,
                  q.(totalStake := SatAdd(q.totalStake, pending),
                     totalCapital := SatAdd(q.totalCapital, pending)),
                  v.(stake := stake, rewardDebt := Earned(stake, q.acc))),
            Reinvested(p, pending)))
  }

  function Outstanding(v: Provider): nat {
    SatSub(v.vestingTotal, v.vestingClaimed)
  }

  function ClearVesting(v: Provider): Provider {
    v.(vestingTotal := 0, vestingClaimed := 0, vestingStart := 0)
  }

  function Claimable(q: Pool, v: Provider, now: nat): nat
    requires q.duration > 0
  {
    SatSub(Vested(v.vestingTotal, SatSub(now, v.vestingStart), q.cliff, q.duration), v.vestingClaimed)
  }

  function TakeVested(v: Provider, claimable: nat): Provider {
    var v' := v.(vestingClaimed := SatAdd(v.vestingClaimed, claimable));
    if v'.vestingClaimed >= v'.vestingTotal then ClearVesting(v') else v'
  }

  function ClaimVested(l: Liq, p: nat, a: Address, now: nat): Reply {
    if p !in l.pools then Err(PoolNotFound)
    else if (p, a) !in l.providers then Err(InsufficientStake)
    else
      var q, v := l.pools[p], l.providers[(p, a)];
      if v.vestingTotal == 0 then Ok((l, Done(0)))
      else if q.duration == 0 then
        if q.availableCapital < v.vestingTotal then Err(InsufficientPoolLiquidity)
        else
          Ok((Store(l, p, a, q.(availableCapital := SatSub(q.availableCapital, v.vestingTotal)), ClearVesting(v)),
              VestedPaid(p, a, v.vestingTotal, v.vestingTotal - Outstanding(v))))
      else if v.vestingStart == 0 then Ok((l, Done(0)))
      else
        var claimable := Claimable(q, v, now);
        if claimable == 0 then Ok((l, Done(0)))
        else if q.availableCapital < claimable then Err(InsufficientPoolLiquidity)
        else
          Ok((Store(l, p, a, q.(availableCapital := SatSub(q.availableCapital, claimable)), TakeVested(v, claimable)),
              VestedPaid(p, a, claimable, 0)))
  }

  // The three ways the policy side touches a pool: a premium, a payout, a policy that ended.

  function TakePremium(q: Pool, share: nat): Pool {
    Accrue(q.(premiumsCollected := SatAdd(q.premiumsCollected, share),
              availableCapital := SatAdd(q.availableCapital, share)), share)
  }

  /** The part of a premium that moved the reward index: none while nobody holds a stake. */
  function Accrued(q: Pool, share: nat): nat {
    if q.totalStake == 0 then 0 else share
  }

  function PayClaim(q: Pool, amount: nat): Pool {
    q.(availableCapital := SatSub(q.availableCapital, amount), claimsPaid := q.claimsPaid + amount)
  }

  function EndPolicy(q: Pool): Pool {
    if q.activePolicies > 0 then q.(activePolicies := q.activePolicies - 1) else q
  }
}
