/** The insurance contract as an object: its storage fields and the messages that update them
    in place. Every method is tied to the function of the same message. */
module InsuranceContract {
  import opened Common
  import opened Liquidity
  import opened Rewards
  import opened Insurance
  import opened InsurancePolicies

  function DefaultConfig(admin: Address): Config {
    Config({(admin, Admin)}, map[], false, 200, 2_592_000, None)
  }

  class PropertyInsurance {
    var pools: map<nat, Pool>
    var poolCount: nat
    var liquidityProviders: map<Key, Provider>
    var poolProviders: map<nat, seq<Address>>
    var policies: map<nat, Policy>
    var policyCount: nat
    var holderPolicies: map<Address, seq<nat>>
    var propertyPolicies: map<nat, seq<nat>>
    var claims: map<nat, Claim>
    var claimCount: nat
    var policyClaims: map<nat, seq<nat>>
    var tokens: map<nat, Token>
    var tokenCount: nat
    var listings: seq<nat>
    var agreements: map<nat, Agreement>
    var agreementCount: nat
    var lastPayout: map<nat, nat>
    var lastClaim: map<Address, nat>
    var nonces: map<Address, nat>
    var usedEvidence: set<(nat, string)>
    var platformFees: nat
    var cfg: Config

    ghost function LiqView(): Liq
      reads `pools, `poolCount, `liquidityProviders, `poolProviders
    {
      Liq(pools, poolCount, liquidityProviders, poolProviders)
    }

    ghost function BookView(): Book
      reads `policies, `policyCount, `holderPolicies, `propertyPolicies, `claims, `claimCount, `policyClaims
      reads `tokens, `tokenCount, `listings, `agreements, `agreementCount, `lastPayout, `lastClaim, `nonces
      reads `usedEvidence, `platformFees
    {
      Book(policies, policyCount, holderPolicies, propertyPolicies, claims, claimCount, policyClaims,
           tokens, tokenCount, listings, agreements, agreementCount, lastPayout, lastClaim, nonces,
           usedEvidence, platformFees)
    }

    ghost function View(): State
      reads this
    {
      State(LiqView(), BookView(), cfg)
    }

    constructor (admin: Address)
      requires admin != ZERO_ADDRESS
      ensures View() == Genesis(DefaultConfig(admin))
      ensures cfg.roles == {(admin, Admin)} && !cfg.paused && cfg.feeRate == 200 && cfg.cooldown == 30 * 24 * 3600
      ensures cfg.assessments == map[] && cfg.oracle.None? && pools == map[] && policies == map[] && claims == map[]
    {
      pools, poolCount, liquidityProviders, poolProviders := map[], 0, map[], map[];
      policies, policyCount, holderPolicies, propertyPolicies := map[], 0, map[], map[];
      claims, claimCount, policyClaims := map[], 0, map[];
      tokens, tokenCount, listings := map[], 0, [];
      agreements, agreementCount := map[], 0;
      lastPayout, lastClaim, nonces, usedEvidence, platformFees := map[], map[], map[], {}, 0;
      cfg := DefaultConfig(admin);
    }

    method CreateRiskPool(e: Env, named: bool, ratio: nat, threshold: nat) returns (r: Result<Receipt, Error>)
      modifies this
      ensures Commits(Insurance.CreateRiskPool(old(View()), e, named, ratio, threshold), old(View()), View(), r)
    {
      if !HasRole(cfg, e.caller, Admin) {
        return Err(Unauthorized);
      }
      if !named || ratio == 0 || ratio > BPS || threshold == 0 {
        return Err(InvalidParameters);
      }
      poolCount := poolCount + 1;
      pools := pools[poolCount := Pool(0, 0, 0, 0, 0, ratio, threshold, true, 0, 0, 0, 0, 0)];
      return Ok(Done(poolCount));
    }

    method ConfigurePoolVesting(e: Env, p: nat, cliff: nat, duration: nat, bps: nat) returns (r: Result<Receipt, Error>)
      modifies this
      ensures Commits(Insurance.ConfigurePoolVesting(old(View()), e, p, cliff, duration, bps), old(View()), View(), r)
    {
      if !HasRole(cfg, e.caller, Admin) {
        return Err(Unauthorized);
      }
      if p !in pools {
        return Err(PoolNotFound);
      }
      if duration == 0 {
        if cliff != 0 || bps != 0 {
          return Err(InvalidParameters);
        }
      } else if cliff > duration || bps > BPS {
        return Err(InvalidParameters);
      }
      var pool := pools[p];
      pool := pool.(cliff := cliff);
      pool := pool.(duration := duration);
      pool := pool.(penaltyBps := bps);
      pools := pools[p := pool];
      return Ok(Done(p));
    }

    method DepositLiquidity(e: Env, p: nat) returns (r: Result<Receipt, Error>)
      modifies `pools, `liquidityProviders, `poolProviders
      ensures Commits(if cfg.paused then Err(ContractPaused) else Deposit(old(LiqView()), p, e.caller, e.value, e.now),
                      old(LiqView()), LiqView(), r)
    {
      hide SatAdd, SatMul;
      if cfg.paused {
        return Err(ContractPaused);
      }
      if e.value == 0 {
        return Err(ZeroAmount);
      }
      if p !in pools || !pools[p].isActive {
        return Err(PoolNotFound);
      }
      var pool := pools[p];
      var provider := Provider(0, 0, e.now, 0, 0, 0);
      if (p, e.caller) in liquidityProviders {
        provider := liquidityProviders[(p, e.caller)];
      }
      if provider.stake + e.value > U128_MAX {
        return Err(InvalidParameters);
      }
      provider := provider.(stake := provider.stake + e.value);
      provider := provider.(rewardDebt := SatAdd(provider.rewardDebt, SatMul(e.value, pool.acc) / PRECISION));
      pool := pool.(totalStake := SatAdd(pool.totalStake, e.value));
      pool := pool.(totalCapital := SatAdd(pool.totalCapital, e.value));
      pool := pool.(availableCapital := SatAdd(pool.availableCapital, e.value));
      pools := pools[p := pool];
      liquidityProviders := liquidityProviders[(p, e.caller) := provider];
      var listed := ListAt(poolProviders, p);
      if e.caller !in listed {
        poolProviders := poolProviders[p := listed + [e.caller]];
      }
      return Ok(Deposited(p, e.value));
    }

    method WithdrawLiquidity(e: Env, p: nat, amount: nat) returns (r: Result<Receipt, Error>)
      modifies `pools, `liquidityProviders, `poolProviders
      ensures Commits(Withdraw(old(LiqView()), p, e.caller, amount, e.now), old(LiqView()), LiqView(), r)
    {
      hide SatAdd, SatSub, Earned, PendingReward, Penalty;
      if amount == 0 {
        return Err(ZeroAmount);
      }
      if p !in pools || !pools[p].isActive {
        return Err(PoolNotFound);
      }
      var key := (p, e.caller);
      if key !in liquidityProviders || liquidityProviders[key].stake < amount {
        return Err(InsufficientStake);
      }
      var pool, provider := pools[p], liquidityProviders[key];
      var acc := pool.acc;
      var pending := PendingReward(provider.stake, acc, provider.rewardDebt);
      var rewards, moved, penalty := pending, 0, 0;
      if pool.duration > 0 {
        rewards, moved := 0, pending;
        if pending > 0 {
          provider := provider.(vestingTotal := SatAdd(provider.vestingTotal, pending));
          provider := provider.(vestingStart := e.now);
          provider := provider.(rewardDebt := Earned(provider.stake, acc));
        }
        penalty := Penalty(pool, provider, e.now);
        provider := provider.(vestingTotal := SatSub(provider.vestingTotal, penalty));
        pool := pool.(availableCapital := SatAdd(pool.availableCapital, penalty));
      }
      var outflow := if pool.duration > 0 then amount else SatAdd(pending, amount);
      if pool.availableCapital < outflow {
        return Err(InsufficientPoolLiquidity);
      }
      provider := provider.(stake := SatSub(provider.stake, amount));
      provider := provider.(rewardDebt := Earned(provider.stake, acc));
      pool := pool.(totalStake := SatSub(pool.totalStake, amount));
      pool := pool.(availableCapital := SatSub(pool.availableCapital, outflow));
      pool := pool.(totalCapital := SatSub(pool.totalCapital, amount));
      pools := pools[p := pool];
      if provider.stake == 0 {
        liquidityProviders := liquidityProviders - {key};
        if p in poolProviders {
          poolProviders := poolProviders[p := Without(poolProviders[p], e.caller)];
        }
      } else {
        liquidityProviders := liquidityProviders[key := provider];
      }
      return Ok(Withdrawn(p, e.caller, amount, rewards, moved, penalty));
    }

    method ClaimRewards(e: Env, p: nat) returns (r: Result<Receipt, Error>)
      modifies `pools, `liquidityProviders, `poolProviders
      ensures Commits(Liquidity.ClaimRewards(old(LiqView()), p, e.caller, e.now), old(LiqView()), LiqView(), r)
    {
      hide SatAdd, SatSub, Earned, PendingReward;
      if p !in pools || !pools[p].isActive {
        return Err(PoolNotFound);
      }
      var key := (p, e.caller);
      if key !in liquidityProviders {
        return Err(InsufficientStake);
      }
      var pool, provider := pools[p], liquidityProviders[key];
      var pending := PendingReward(provider.stake, pool.acc, provider.rewardDebt);
      if pending == 0 {
        return Ok(Done(0));
      }
      if pool.duration > 0 {
        provider := provider.(vestingTotal := SatAdd(provider.vestingTotal, pending));
        provider := provider.(vestingStart := e.now);
        provider := provider.(rewardDebt := Earned(provider.stake, pool.acc));
        pools := pools[p := pool];
        liquidityProviders := liquidityProviders[key := provider];
        return Ok(VestingStarted(p, e.caller, pending));
      }
      if pool.availableCapital < pending {
        return Err(InsufficientPoolLiquidity);
      }
      provider := provider.(rewardDebt := Earned(provider.stake, pool.acc));
      pool := pool.(availableCapital := SatSub(pool.availableCapital, pending));
      pools := pools[p := pool];
      liquidityProviders := liquidityProviders[key := provider];
      return Ok(RewardsPaid(p, pending));
    }

    method ReinvestRewards(e: Env, p: nat) returns (r: Result<Receipt, Error>)
      modifies `pools, `liquidityProviders, `poolProviders
      ensures Commits(Reinvest(old(LiqView()), p, e.caller), old(LiqView()), LiqView(), r)
    {
      if p !in pools || !pools[p].isActive {
        return Err(PoolNotFound);
      }
      var key := (p, e.caller);
      if key !in liquidityProviders {
        return Err(InsufficientStake);
      }
      var pool, provider := pools[p], liquidityProviders[key];
      var pending := PendingReward(provider.stake, pool.acc, provider.rewardDebt);
      if pending == 0 {
        return Ok(Done(0));
      }
      provider := provider.(stake := SatAdd(provider.stake, pending));
      provider := provider.(rewardDebt := Earned(provider.stake, pool.acc));
      pool := pool.(totalStake := SatAdd(pool.totalStake, pending));
      pool := pool.(totalCapital := SatAdd(pool.totalCapital, pending));
      pools := pools[p := pool];
      liquidityProviders := liquidityProviders[key := provider];
      return Ok(Reinvested(p, pending));
    }

    method ClaimVestedRewards(e: Env, p: nat) returns (r: Result<Receipt, Error>)
      modifies `pools, `liquidityProviders, `poolProviders
      ensures Commits(ClaimVested(old(LiqView()), p, e.caller, e.now), old(LiqView()), LiqView(), r)
    {
      hide SatAdd, SatMul;
      if p !in pools {
        return Err(PoolNotFound);
      }
      var key := (p, e.caller);
      if key !in liquidityProviders {
        return Err(InsufficientStake);
      }
      var pool, provider := pools[p], liquidityProviders[key];
      var total := provider.vestingTotal;
      if total == 0 {
        return Ok(Done(0));
      }
      if pool.duration == 0 {
        if pool.availableCapital < total {
          return Err(InsufficientPoolLiquidity);
        }
        pool := pool.(availableCapital := SatSub(pool.availableCapital, total));
        pools := pools[p := pool];
        r := Ok(VestedPaid(p, e.caller, total, total - Outstanding(provider)));
        provider := provider.(vestingTotal := 0, vestingClaimed := 0, vestingStart := 0);
        liquidityProviders := liquidityProviders[key := provider];
        return;
      }
      if provider.vestingStart == 0 {
        return Ok(Done(0));
      }
      var elapsed := SatSub(e.now, provider.vestingStart);
      if elapsed < pool.cliff {
        return Ok(Done(0));
      }
      var secs := if elapsed >= pool.duration then pool.duration else elapsed;
      var vested := SatMul(total, secs) / pool.duration;
      var claimable := SatSub(vested, provider.vestingClaimed);
      if claimable == 0 {
        return Ok(Done(0));
      }
      if pool.availableCapital < claimable {
        return Err(InsufficientPoolLiquidity);
      }
      provider := provider.(vestingClaimed := SatAdd(provider.vestingClaimed, claimable));
      if provider.vestingClaimed >= provider.vestingTotal {
        provider := provider.(vestingTotal := 0, vestingClaimed := 0, vestingStart := 0);
      }
      pool := pool.(availableCapital := SatSub(pool.availableCapital, claimable));
      pools := pools[p := pool];
      liquidityProviders := liquidityProviders[key := provider];
      return Ok(VestedPaid(p, e.caller, claimable, 0));
    }

    /** The reward that a claim at any time pays or moves into vesting; zero when there is none. */
    method GetPendingRewards(p: nat, a: Address) returns (pending: nat)
      ensures p in pools && (p, a) in liquidityProviders ==>
                var v := liquidityProviders[(p, a)];
                pending == PendingReward(v.stake, pools[p].acc, v.rewardDebt)
      ensures p !in pools || (p, a) !in liquidityProviders ==> pending == 0
      ensures Quotes(LiqView(), p, a, pending)
    {
      hide Quotes, PendingReward;
      if p in pools && (p, a) in liquidityProviders {
        QuoteIsWhatClaimPays(LiqView(), p, a);
      } else {
        NothingToQuote(LiqView(), p, a);
      }
      if p !in pools || (p, a) !in liquidityProviders {
        return 0;
      }
      var v := liquidityProviders[(p, a)];
      return PendingReward(v.stake, pools[p].acc, v.rewardDebt);
    }

    method CreatePolicy(e: Env, property: nat, t: CoverageType, coverage: nat, p: nat, duration: nat, event: Option<nat>)
        returns (r: Result<Receipt, Error>)
      modifies this
      ensures Commits(Insurance.CreatePolicy(old(View()), e, property, t, coverage, p, duration, event), old(View()), View(), r)
    {
      hide ApplicationFault, Fee, Deductible, SatSub, SatTime, Insurance.Underwrite, Accrued;
      var fault := CheckApplication(e, property, t, coverage, p, duration, event);
      if fault.Some? {
        return Err(fault.value);
      }
      var fee := Fee(e.value, cfg.feeRate);
      var share := SatSub(e.value, fee);
      var score := cfg.assessments[property].score;
      var policy := Policy(property, e.caller, coverage, e.value, Deductible(coverage, score),
                           SatTime(e.now, duration), Active, p, 0, 0, event);
      var id, accrued := Underwrite(policy, fee, share);
      return Ok(PremiumTaken(p, id, share, accrued));
    }

    method Underwrite(policy: Policy, fee: nat, share: nat) returns (id: nat, accrued: nat)
      requires policy.pool in pools
      modifies `pools, `platformFees, `policyCount, `policies, `holderPolicies, `propertyPolicies, `tokens, `tokenCount
      ensures View() == Insurance.Underwrite(old(View()), policy, fee, share)
      ensures id == old(BookView()).policyCount + 1 && accrued == Accrued(old(pools[policy.pool]), share)
    {
      hide BookView, TakePremium, Accrued, Enrol, Mint;
      CollectFee(fee);
      accrued := TakePolicyPremium(policy.pool, share);
      id := EnrolAndMint(policy);
    }

    method EnrolAndMint(policy: Policy) returns (id: nat)
      modifies `policyCount, `policies, `holderPolicies, `propertyPolicies, `tokens, `tokenCount
      ensures id == old(BookView()).policyCount + 1
      ensures BookView() == Mint(Enrol(old(BookView()), policy), id, policy.holder, policy.coverage)
    {
      hide BookView, Enrol, Mint;
      id := EnrolPolicy(policy);
      MintToken(id, policy.holder, policy.coverage);
    }

    method CheckApplication(e: Env, property: nat, t: CoverageType, coverage: nat, p: nat, duration: nat, event: Option<nat>)
        returns (fault: Option<Error>)
      ensures fault == ApplicationFault(View(), e, property, t, coverage, p, duration, event)
      ensures fault.None? ==> p in pools && property in cfg.assessments
      ensures fault.None? ==> Covered(View(), e, property, t, coverage, p, duration, event)
    {
      hide ApplicationFault, Covered;
      fault := FindApplicationFault(e, property, t, coverage, p, duration, event);
      AcceptedApplication(View(), e, property, t, coverage, p, duration, event);
    }

    method FindApplicationFault(e: Env, property: nat, t: CoverageType, coverage: nat, p: nat, duration: nat,
                                event: Option<nat>)
        returns (fault: Option<Error>)
      ensures fault == ApplicationFault(View(), e, property, t, coverage, p, duration, event)
      ensures fault.None? ==> p in pools && property in cfg.assessments
    {
      hide BookView, AnnualPremium, Exposure, SatAdd, SatSub, Fee;
      if event == Some(0) {
        return Some(InvalidParameters);
      }
      if cfg.paused {
        return Some(ContractPaused);
      }
      if property == 0 || coverage == 0 || duration == 0 {
        return Some(InvalidParameters);
      }
      if p !in pools || !pools[p].isActive {
        return Some(PoolNotFound);
      }
      var pool := pools[p];
      if coverage > Exposure(pool.totalCapital, pool.maxCoverageRatio) {
        return Some(InsufficientPoolFunds);
      }
      if property !in cfg.assessments || e.now > cfg.assessments[property].validUntil {
        return Some(PropertyNotInsurable);
      }
      var premium := AnnualPremium(coverage, cfg.assessments[property].score, t);
      if premium < MIN_PREMIUM {
        return Some(PremiumTooLow);
      }
      if e.value < premium {
        return Some(InsufficientPremium);
      }
      var share := SatSub(e.value, Fee(e.value, cfg.feeRate));
      if coverage > Exposure(SatAdd(pool.availableCapital, share), pool.maxCoverageRatio) {
        return Some(InsufficientPoolFunds);
      }
      return None;
    }

    method CollectFee(fee: nat)
      modifies `platformFees
      ensures var b := old(BookView()); BookView() == b.(platformFees := b.platformFees + fee)
    {
      platformFees := platformFees + fee;
    }

    /** Credits a new policy's premium share to its pool. */
    method TakePolicyPremium(p: nat, share: nat) returns (accrued: nat)
      requires p in pools
      modifies `pools
      ensures pools == old(pools)[p := TakePremium(old(pools[p]).(activePolicies := old(pools[p]).activePolicies + 1), share)]
      ensures accrued == Accrued(old(pools[p]), share)
    {
      hide SatAdd, AccrualStep;
      var pool := pools[p];
      pool := pool.(premiumsCollected := SatAdd(pool.premiumsCollected, share));
      pool := pool.(availableCapital := SatAdd(pool.availableCapital, share));
      pool := pool.(activePolicies := pool.activePolicies + 1);
      accrued := 0;
      if share > 0 && pool.totalStake > 0 {
        pool := pool.(acc := SatAdd(pool.acc, AccrualStep(share, pool.totalStake)));
        accrued := share;
      }
      pools := pools[p := pool];
    }

    method EnrolPolicy(policy: Policy) returns (id: nat)
      modifies `policyCount, `policies, `holderPolicies, `propertyPolicies
      ensures BookView() == Enrol(old(BookView()), policy) && id == old(BookView()).policyCount + 1
    {
      id := StorePolicy(policy);
    }

    method StorePolicy(policy: Policy) returns (id: nat)
      modifies `policyCount, `policies, `holderPolicies, `propertyPolicies
      ensures id == policyCount == old(policyCount) + 1 && policies == old(policies)[id := policy]
      ensures holderPolicies == old(holderPolicies)[policy.holder := ListAt(old(holderPolicies), policy.holder) + [id]]
      ensures propertyPolicies
              == old(propertyPolicies)[policy.property := ListAt(old(propertyPolicies), policy.property) + [id]]
    {
      id := policyCount + 1;
      policyCount := id;
      policies := policies[id := policy];
      holderPolicies := holderPolicies[policy.holder := ListAt(holderPolicies, policy.holder) + [id]];
      propertyPolicies := propertyPolicies[policy.property := ListAt(propertyPolicies, policy.property) + [id]];
    }

    method MintToken(policyId: nat, owner: Address, faceValue: nat)
      modifies `tokens, `tokenCount
      ensures BookView() == Mint(old(BookView()), policyId, owner, faceValue)
    {
      tokenCount := tokenCount + 1;
      tokens := tokens[tokenCount := Token(policyId, owner, faceValue, true, None)];
    }

    method RenewPolicy(e: Env, id: nat, duration: nat) returns (r: Result<Receipt, Error>)
      modifies this
      ensures Commits(Insurance.RenewPolicy(old(View()), e, id, duration), old(View()), View(), r)
    {
      if duration == 0 {
        return Err(InvalidParameters);
      }
      if e.value == 0 {
        return Err(InsufficientPremium);
      }
      if id !in policies {
        return Err(PolicyNotFound);
      }
      var policy := policies[id];
      if policy.holder != e.caller {
        return Err(Unauthorized);
      }
      if policy.status != Active && policy.status != Renewed {
        return Err(PolicyInactive);
      }
      if policy.pool !in pools {
        return Err(PoolNotFound);
      }
      var pool := pools[policy.pool];
      var fee := Fee(e.value, cfg.feeRate);
      var share := SatSub(e.value, fee);
      var accrued := Accrued(pool, share);
      pool := pool.(premiumsCollected := SatAdd(pool.premiumsCollected, share));
      pool := pool.(availableCapital := SatAdd(pool.availableCapital, share));
      pool := Accrue(pool, share);
      pools := pools[policy.pool := pool];
      policy := policy.(endTime := SatTime(policy.endTime, duration));
      policy := policy.(premium := SatAdd(policy.premium, e.value));
      policy := policy.(status := Renewed);
      policies := policies[id := policy];
      return Ok(PremiumTaken(policy.pool, id, share, accrued));
    }

    method CancelPolicy(e: Env, id: nat) returns (r: Result<Receipt, Error>)
      modifies this
      ensures Commits(Insurance.CancelPolicy(old(View()), e, id), old(View()), View(), r)
    {
      if id !in policies {
        return Err(PolicyNotFound);
      }
      var policy := policies[id];
      if e.caller != policy.holder && !HasRole(cfg, e.caller, Admin) {
        return Err(Unauthorized);
      }
      if policy.status != Active {
        return Err(PolicyInactive);
      }
      policies := policies[id := policy.(status := Cancelled)];
      ReleasePolicy(policy.pool);
      return Ok(Done(id));
    }

    method ReleasePolicy(p: nat)
      modifies this`pools
      ensures LiqView() == EndIn(old(LiqView()), p)
    {
      if p in pools {
        var pool := pools[p];
        if pool.activePolicies > 0 {
          pool := pool.(activePolicies := pool.activePolicies - 1);
        }
        pools := pools[p := pool];
      }
    }

    method ExpirePolicies(e: Env, maxScan: nat) returns (expired: nat)
      modifies `pools, `policies
      ensures Commits(Insurance.ExpirePolicies(old(View()), e, maxScan), old(View()), View(), Ok(Done(expired)))
    {
      hide ExpireFrom;
      var limit := if maxScan == 0 then policyCount else maxScan;
      expired := ScanPolicies(limit, e.now);
    }

    /** Walks over all policies until `limit` of them were overdue. */
    method ScanPolicies(limit: nat, now: nat) returns (expired: nat)
      modifies `pools, `policies
      ensures (LiqView(), policies, expired) == ExpireFrom(old(LiqView()), old(policies), 1, policyCount, limit, now)
    {
      hide LiqView, EndIn;
      expired := 0;
      var i := 1;
      while i <= policyCount && expired < limit
        invariant 1 <= i <= policyCount + 1 && expired <= limit
        invariant var rest := ExpireFrom(LiqView(), policies, i, policyCount, limit - expired, now);
                  (rest.0, rest.1, rest.2 + expired) == ExpireFrom(old(LiqView()), old(policies), 1, policyCount, limit, now)
      {
        if i in policies {
          var policy := policies[i];
          if policy.status == Active && now > policy.endTime {
            policies := policies[i := policy.(status := Expired)];
            ReleasePolicy(policy.pool);
            expired := expired + 1;
          }
        }
        i := i + 1;
      }
    }

    method SubmitClaim(e: Env, policyId: nat, amount: nat, ev: Evidence, nonce: nat) returns (r: Result<Receipt, Error>)
      modifies this
      ensures Commits(Insurance.SubmitClaim(old(View()), e, policyId, amount, ev, nonce), old(View()), View(), r)
    {
      hide BookView, SubmitFault, Insurance.FileClaim, Insurance.ProcessClaim;
      var fault := CheckClaim(e, policyId, amount, ev, nonce);
      if fault.Some? {
        return Err(fault.value);
      }
      var automatic := cfg.oracle.Some? && policies[policyId].event == Some(AUTO_APPROVED_EVENT);
      // what the host restores if the automatic review below fails
      ClaimFields();
      var countBefore, claimsBefore, listsBefore, policiesBefore := claimCount, claims, policyClaims, policies;
      var id := FileClaim(Claim(policyId, e.caller, amount, Pending, e.now, None, 0, None));
      if automatic {
        r := ProcessClaim(e, id, true);
        if r.Err? {
          FilingWrites(old(BookView()), id, Claim(policyId, e.caller, amount, Pending, e.now, None, 0, None));
          Restore(countBefore, claimsBefore, listsBefore, policiesBefore);
        }
        return;
      }
      LogSubmission(policyId, ev.kind, e, nonce);
      return Ok(Done(id));
    }

    lemma ClaimFields()
      ensures var b := BookView();
              b.claimCount == claimCount && b.claims == claims && b.policyClaims == policyClaims && b.policies == policies
    {
    }

    method Restore(count: nat, claims: map<nat, Claim>, lists: map<nat, seq<nat>>, policies: map<nat, Policy>)
      modifies `claimCount, `claims, `policyClaims, `policies
      ensures BookView() == old(BookView()).(claimCount := count, claims := claims, policyClaims := lists, policies := policies)
    {
      this.claimCount, this.claims, this.policyClaims, this.policies := count, claims, lists, policies;
    }

    /** Uses up the evidence and the caller's nonce and starts the caller's cooldown. */
    method LogSubmission(policyId: nat, kind: string, e: Env, nonce: nat)
      modifies `usedEvidence, `lastClaim, `nonces
      ensures BookView() == Logged(old(BookView()), policyId, kind, e, nonce)
    {
      usedEvidence := usedEvidence + {(policyId, kind)};
      lastClaim := lastClaim[e.caller := e.now];
      nonces := nonces[e.caller := nonce + 1];
    }

    method CheckClaim(e: Env, policyId: nat, amount: nat, ev: Evidence, nonce: nat) returns (fault: Option<Error>)
      ensures fault == SubmitFault(View(), e, policyId, amount, ev, nonce)
      ensures fault.None? ==> policyId in policies && policies == BookView().policies
      ensures fault.None? ==>
                var policy := policies[policyId];
                policy.holder == e.caller && policy.status == Active && policy.totalClaimed + amount <= policy.coverage
    {
      hide SubmitFault;
      fault := FindClaimFault(e, policyId, amount, ev, nonce);
      AcceptedClaim(View(), e, policyId, amount, ev, nonce);
    }

    method FindClaimFault(e: Env, policyId: nat, amount: nat, ev: Evidence, nonce: nat) returns (fault: Option<Error>)
      ensures fault == SubmitFault(View(), e, policyId, amount, ev, nonce)
    {
      hide EvidenceFault, SatSub;
      if cfg.paused {
        return Some(ContractPaused);
      }
      if nonce != CountAt(nonces, e.caller) {
        return Some(NonceAlreadyUsed);
      }
      if amount == 0 {
        return Some(ZeroAmount);
      }
      fault := EvidenceFault(ev);
      if fault.Some? {
        return;
      }
      if (policyId, ev.kind) in usedEvidence {
        return Some(NonceAlreadyUsed);
      }
      if policyId !in policies {
        return Some(PolicyNotFound);
      }
      var policy := policies[policyId];
      if policy.holder != e.caller {
        return Some(Unauthorized);
      }
      if policy.status != Active {
        return Some(PolicyInactive);
      }
      if e.now > policy.endTime {
        return Some(PolicyExpired);
      }
      if amount > SatSub(policy.coverage, policy.totalClaimed) {
        return Some(ClaimExceedsCoverage);
      }
      if SatSub(e.now, CountAt(lastPayout, policy.property)) < cfg.cooldown
         || SatSub(e.now, CountAt(lastClaim, e.caller)) < cfg.cooldown {
        return Some(CooldownPeriodActive);
      }
    }

    method FileClaim(claim: Claim) returns (id: nat)
      requires claim.policy in BookView().policies
      modifies `claimCount, `claims, `policyClaims, `policies
      ensures id == old(BookView()).claimCount + 1
      ensures BookView() == Insurance.FileClaim(old(BookView()), id, claim)
    {
      id := StoreClaim(claim);
    }

    method StoreClaim(claim: Claim) returns (id: nat)
      requires claim.policy in policies
      modifies `claimCount, `claims, `policyClaims, `policies
      ensures id == claimCount == old(claimCount) + 1 && claims == old(claims)[id := claim]
      ensures policyClaims == old(policyClaims)[claim.policy := ListAt(old(policyClaims), claim.policy) + [id]]
      ensures var policy := old(policies)[claim.policy];
              policies == old(policies)[claim.policy := policy.(claimsCount := policy.claimsCount + 1)]
    {
      id := claimCount + 1;
      claimCount := id;
      claims := claims[id := claim];
      policyClaims := policyClaims[claim.policy := ListAt(policyClaims, claim.policy) + [id]];
      var policy := policies[claim.policy];
      policies := policies[claim.policy := policy.(claimsCount := policy.claimsCount + 1)];
    }

    method ProcessClaim(e: Env, id: nat, approved: bool) returns (r: Result<Receipt, Error>)
      modifies this
      ensures Commits(Insurance.ProcessClaim(old(View()), e, id, approved), old(View()), View(), r)
    {
      if cfg.paused {
        return Err(ContractPaused);
      }
      if !HasRole(cfg, e.caller, Assessor) {
        return Err(Unauthorized);
      }
      // what the host restores if the payout fails
      var claimsBefore, agreementsBefore := claims, agreements;
      r := ProcessClaimInner(e, id, approved);
      if r.Err? {
        InnerErrorWrites(old(View()), e, id, approved);
        claims, agreements := claimsBefore, agreementsBefore;
      }
    }

    /** One claim of a batch: reports whether it succeeded and never rolls back. */
    method ProcessSingleClaim(e: Env, id: nat, approved: bool) returns (r: Result<Receipt, Error>)
      modifies this
      ensures Commits(ProcessInBatch(old(View()), e, id, approved), old(View()), View(), r)
    {
      if !HasRole(cfg, e.caller, Assessor) {
        return Err(Unauthorized);
      }
      r := ProcessClaimInner(e, id, approved);
      if r.Err? {
        r := Ok(Done(0));
      }
    }

    method ProcessClaimInner(e: Env, id: nat, approved: bool) returns (r: Result<Receipt, Error>)
      modifies this
      ensures (View(), r) == Insurance.ProcessClaimInner(old(View()), e, id, approved)
    {
      if id !in claims {
        return Err(ClaimNotFound);
      }
      var claim := claims[id];
      if claim.status != Pending && claim.status != UnderReview {
        return Err(ClaimAlreadyProcessed);
      }
      claim := claim.(assessor := Some(e.caller));
      claim := claim.(processedAt := Some(e.now));
      if !approved {
        claims := claims[id := claim.(status := Rejected)];
        return Ok(Done(id));
      }
      if claim.policy !in policies {
        return Err(PolicyNotFound);
      }
      var deductible := policies[claim.policy].deductible;
      var payout := if claim.amount > deductible then SatSub(claim.amount, deductible) else 0;
      claim := claim.(payout := payout, status := Approved);
      claims := claims[id := claim];
      assert View() == SetClaim(old(View()), id, Approval(old(claims)[id], e, PayoutOf(old(BookView()), id)));
      r := ExecutePayout(id, claim.policy, payout, e.now);
    }

    method ExecutePayout(id: nat, policyId: nat, amount: nat, now: nat) returns (r: Result<Receipt, Error>)
      modifies this
      ensures (View(), r) == Insurance.ExecutePayout(old(View()), id, policyId, amount, now)
    {
      hide RecoverFrom, Insurance.PayOut;
      if amount == 0 {
        return Ok(Done(id));
      }
      if policyId !in policies {
        return Err(PolicyNotFound);
      }
      var policy := policies[policyId];
      if policy.pool !in pools {
        return Err(PoolNotFound);
      }
      var pool := pools[policy.pool];
      if amount > pool.reinsuranceThreshold {
        TryReinsuranceRecovery(amount, now);
      }
      if pool.availableCapital < amount {
        return Err(InsufficientPoolFunds);
      }
      PayOut(id, policyId, amount, now);
      return Ok(ClaimPaid(policy.pool, amount));
    }

    method PayOut(id: nat, policyId: nat, amount: nat, now: nat)
      requires policyId in policies && policies[policyId].pool in pools
      modifies `pools, `policies, `lastPayout, `claims
      ensures View() == Insurance.PayOut(old(View()), id, policyId, amount, now)
    {
      hide PayClaim;
      DebitPool(policies[policyId].pool, amount);
      RecordPayout(id, policyId, amount, now);
    }

    method DebitPool(p: nat, amount: nat)
      requires p in pools
      modifies `pools
      ensures pools == old(pools)[p := PayClaim(old(pools)[p], amount)]
    {
      var pool := pools[p];
      pool := pool.(availableCapital := SatSub(pool.availableCapital, amount));
      pool := pool.(claimsPaid := pool.claimsPaid + amount);
      pools := pools[p := pool];
    }

    /** Adds a payout to its policy, stamps the property and marks the claim paid. */
    method RecordPayout(id: nat, policyId: nat, amount: nat, now: nat)
      requires policyId in policies
      modifies `policies, `lastPayout, `claims
      ensures var policy := old(policies)[policyId];
              var total := policy.totalClaimed + amount;
              && policies == old(policies)[policyId := policy.(totalClaimed := total,
                                             status := if total >= policy.coverage then Claimed else policy.status)]
              && lastPayout == old(lastPayout)[policy.property := now]
      ensures claims == if id in old(claims) then old(claims)[id := old(claims)[id].(status := Paid)] else old(claims)
    {
      var policy := policies[policyId];
      policy := policy.(totalClaimed := policy.totalClaimed + amount);
      if policy.totalClaimed >= policy.coverage {
        policy := policy.(status := Claimed);
      }
      policies := policies[policyId := policy];
      lastPayout := lastPayout[policy.property := now];
      if id in claims {
        claims := claims[id := claims[id].(status := Paid)];
      }
    }

    /** Books a recovery on the first agreement that contributes one. */
    method TryReinsuranceRecovery(amount: nat, now: nat)
      modifies this`agreements
      ensures agreements == RecoverFrom(old(agreements), 1, agreementCount, amount, now)
    {
      var i := 1;
      while i <= agreementCount
        invariant 1 <= i <= agreementCount + 1
        invariant agreements == old(agreements)
        invariant RecoverFrom(agreements, i, agreementCount, amount, now) == RecoverFrom(old(agreements), 1, agreementCount, amount, now)
      {
        if i in agreements {
          var agreement := agreements[i];
          if agreement.active && now <= agreement.endTime {
            var recovery := SatSub(amount, agreement.retention);
            var capped := if recovery < agreement.limit then recovery else agreement.limit;
            if capped > 0 {
              agreements := agreements[i := agreement.(recovered := agreement.recovered + capped)];
              return;
            }
          }
        }
        i := i + 1;
      }
    }

    method RegisterReinsurance(e: Env, reinsurer: Address, limit: nat, retention: nat, cededRate: nat,
                               coverages: nat, duration: nat) returns (r: Result<Receipt, Error>)
      modifies this
      ensures Commits(Insurance.RegisterReinsurance(old(View()), e, reinsurer, limit, retention, cededRate, coverages, duration),
                      old(View()), View(), r)
    {
      if !HasRole(cfg, e.caller, Admin) {
        return Err(Unauthorized);
      }
      if reinsurer == ZERO_ADDRESS || limit == 0 || retention == 0 || retention > limit
         || cededRate == 0 || cededRate > BPS || coverages == 0 || duration == 0 {
        return Err(InvalidParameters);
      }
      agreementCount := agreementCount + 1;
      agreements := agreements[agreementCount := Agreement(limit, retention, SatTime(e.now, duration), true, 0)];
      return Ok(Done(agreementCount));
    }

    method ListTokenForSale(e: Env, id: nat, price: nat) returns (r: Result<Receipt, Error>)
      modifies this
      ensures Commits(ListToken(old(View()), e, id, price), old(View()), View(), r)
    {
      if id == 0 || price == 0 {
        return Err(InvalidParameters);
      }
      if id !in tokens {
        return Err(TokenNotFound);
      }
      var token := tokens[id];
      if token.owner != e.caller {
        return Err(Unauthorized);
      }
      if !token.tradeable {
        return Err(InvalidParameters);
      }
      tokens := tokens[id := token.(listed := Some(price))];
      if id !in listings {
        listings := listings + [id];
      }
      return Ok(Done(id));
    }

    method PurchaseToken(e: Env, id: nat) returns (r: Result<Receipt, Error>)
      modifies this
      ensures Commits(Insurance.PurchaseToken(old(View()), e, id), old(View()), View(), r)
    {
      hide Without;
      if id !in tokens {
        return Err(TokenNotFound);
      }
      var token := tokens[id];
      if token.listed.None? {
        return Err(InvalidParameters);
      }
      if e.value < token.listed.value {
        return Err(InsufficientPremium);
      }
      if token.policy !in policies {
        return Err(PolicyNotFound);
      }
      if policies[token.policy].status != Active {
        return Err(PolicyInactive);
      }
      HandOver(id, e.caller);
      return Ok(Done(id));
    }

    /** Moves a policy and its token to the buyer and takes the token off the market. */
    method HandOver(id: nat, buyer: Address)
      requires id in tokens && tokens[id].policy in policies
      modifies `policies, `holderPolicies, `tokens, `listings
      ensures BookView() == Transfer(old(BookView()), id, buyer)
    {
      hide Without;
      var token := tokens[id];
      var seller, policy := token.owner, policies[token.policy];
      policies := policies[token.policy := policy.(holder := buyer)];
      holderPolicies := holderPolicies[seller := Without(ListAt(holderPolicies, seller), token.policy)];
      holderPolicies := holderPolicies[buyer := ListAt(holderPolicies, buyer) + [token.policy]];
      token := token.(owner := buyer, listed := None);
      tokens := tokens[id := token];
      listings := Without(listings, id);
    }
  }

  lemma FilingWrites(b: Book, id: nat, claim: Claim)
    requires claim.policy in b.policies
    ensures b == Insurance.FileClaim(b, id, claim).(claimCount := b.claimCount, claims := b.claims,
                                                    policyClaims := b.policyClaims, policies := b.policies)
  {
  }

  lemma PayoutErrorWrites(s: State, id: nat, policyId: nat, amount: nat, now: nat)
    ensures var (s', r) := Insurance.ExecutePayout(s, id, policyId, amount, now);
            r.Err? ==> s == s'.(book := s'.book.(agreements := s.book.agreements))
  {
    hide Recovered, Insurance.PayOut;
    forall q: Pool ensures s == Recovered(s, q, amount, now).(
                                  book := Recovered(s, q, amount, now).book.(agreements := s.book.agreements))
    {
      RecoveryWrites(s, q, amount, now);
    }
  }

  lemma RecoveryWrites(s: State, q: Pool, amount: nat, now: nat)
    ensures var s' := Recovered(s, q, amount, now); s == s'.(book := s'.book.(agreements := s.book.agreements))
  {
    hide RecoverFrom;
  }

  /** A failed review wrote at most the claim and a reinsurance recovery. */
  lemma InnerErrorWrites(s: State, e: Env, id: nat, approved: bool)
    ensures var (s', r) := Insurance.ProcessClaimInner(s, e, id, approved);
            r.Err? ==> s == s'.(book := s'.book.(claims := s.book.claims, agreements := s.book.agreements))
  {
    hide Insurance.ExecutePayout, PayoutOf, Approval, Rejection;
    if approved && ReviewFault(s.book, id, approved).None? {
      var claim, payout := s.book.claims[id], PayoutOf(s.book, id);
      PayoutErrorWrites(SetClaim(s, id, Approval(claim, e, payout)), id, claim.policy, payout, e.now);
    }
  }
}
