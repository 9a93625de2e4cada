/** What the liquidity messages ask and do, pool and provider in full, while sums of money fit. */
module LiquidityRules {
  import opened Common
  import opened Liquidity
  import opened Solvency
  import opened Rewards

  /** Only pool `p` and the record of `a` in it change, and the list of the pool's providers is
      the only one touched. */
  ghost predicate OnlyProvider(l: Liq, l': Liq, p: nat, a: Address) {
    && l'.poolCount == l.poolCount && l'.pools.Keys == l.pools.Keys && p in l.pools
    && (forall j: nat | j in l.pools && j != p :: l'.pools[j] == l.pools[j])
    && (forall k: Key | k != (p, a) :: k in l'.providers <==> k in l.providers)
    && (forall k: Key | k in l.providers && k != (p, a) :: l'.providers[k] == l.providers[k])
    && (forall j: nat | j != p :: ListAt(l'.poolProviders, j) == ListAt(l.poolProviders, j))
  }

  /** A pool is created with a name, a coverage ratio of up to the whole capital and a threshold; it
      starts active, empty and without vesting, under the next number. */
  lemma PoolRule(l: Liq, named: bool, ratio: nat, threshold: nat)
    ensures CreatePool(l, named, ratio, threshold).Ok? <==> named && 1 <= ratio <= 10_000 && threshold >= 1
    ensures CreatePool(l, named, ratio, threshold).Ok? ==>
              var (l', r), id := CreatePool(l, named, ratio, threshold).value, l.poolCount + 1;
              && r == Done(id) && l' == l.(poolCount := id, pools := l'.pools) && id in l'.pools
              && (forall j: nat | j != id :: (j in l'.pools <==> j in l.pools) && (j in l.pools ==> l'.pools[j] == l.pools[j]))
              && var q := l'.pools[id];
              && q.isActive && q.maxCoverageRatio == ratio && q.reinsuranceThreshold == threshold
              && q.totalCapital == q.availableCapital == q.totalStake == q.premiumsCollected == q.claimsPaid == 0
              && q.activePolicies == q.acc == q.cliff == q.duration == q.penaltyBps == 0
  {
  }

  /** A vesting schedule is set when its cliff lies within it and its penalty is at most the whole, or
      switched off together with both. */
  lemma ScheduleRule(l: Liq, p: nat, cliff: nat, duration: nat, bps: nat)
    ensures ConfigureVesting(l, p, cliff, duration, bps).Ok?
            <==> p in l.pools && cliff <= duration && bps <= 10_000 && (duration == 0 ==> bps == 0)
    ensures ConfigureVesting(l, p, cliff, duration, bps).Ok? ==>
              var (l', r) := ConfigureVesting(l, p, cliff, duration, bps).value;
              && r == Done(p) && l' == l.(pools := l'.pools) && OnlyProvider(l, l', p, 0)
              && l'.pools[p] == l.pools[p].(cliff := cliff, duration := duration, penaltyBps := bps)
  {
  }

  ghost predicate Room(q: Pool, amount: nat) {
    q.totalStake + amount <= U128_MAX && q.totalCapital + amount <= U128_MAX && q.availableCapital + amount <= U128_MAX
  }

  /** Anybody deposits a positive amount into an active pool. Stake, capital and available capital
      grow by it, the debt by what it would have earned so far, and a newcomer is listed last;
      rewards and vesting are untouched. */
  lemma DepositRule(l: Liq, p: nat, a: Address, amount: nat, now: nat)
    requires p in l.pools ==> Room(l.pools[p], amount)
    ensures var v := ProviderAt(l.providers, (p, a));
            Deposit(l, p, a, amount, now).Ok?
            <==> amount > 0 && p in l.pools && l.pools[p].isActive && v.stake + amount <= U128_MAX
    ensures Deposit(l, p, a, amount, now).Ok? ==>
              var (l', r), q, v := Deposit(l, p, a, amount, now).value, l.pools[p], ProviderAt(l.providers, (p, a));
              && r == Deposited(p, amount) && OnlyProvider(l, l', p, a) && (p, a) in l'.providers
              && var q', v' := l'.pools[p], l'.providers[(p, a)];
              && q'.totalStake == q.totalStake + amount && q'.totalCapital == q.totalCapital + amount
              && q'.availableCapital == q.availableCapital + amount
              && q' == q.(totalStake := q'.totalStake, totalCapital := q'.totalCapital, availableCapital := q'.availableCapital)
              && v'.stake == v.stake + amount && v'.depositedAt == (if (p, a) in l.providers then v.depositedAt else now)
              && (amount * q.acc <= U128_MAX && v.rewardDebt + amount * q.acc / PRECISION <= U128_MAX ==>
                    v'.rewardDebt == v.rewardDebt + amount * q.acc / PRECISION)
              && v' == v.(stake := v'.stake, depositedAt := v'.depositedAt, rewardDebt := v'.rewardDebt)
              && ListAt(l'.poolProviders, p) == if a in ListAt(l.poolProviders, p) then ListAt(l.poolProviders, p)
                                                else ListAt(l.poolProviders, p) + [a]
  {
  }

  /** What is pending for a provider. */
  function Pending(l: Liq, p: nat, a: Address): nat
    requires p in l.pools && (p, a) in l.providers
  {
    PendingReward(l.providers[(p, a)].stake, l.pools[p].acc, l.providers[(p, a)].rewardDebt)
  }

  /** The debt that leaves nothing pending. */
  ghost predicate Synced(q: Pool, v: Provider) {
    v.rewardDebt == Earned(v.stake, q.acc)
  }

  /** The pending reward is what the stake earned since its debt was set, while products fit. */
  lemma PendingMeans(stake: nat, acc: nat, debt: nat)
    requires stake * acc <= U128_MAX
    ensures PendingReward(stake, acc, debt) == SatSub(stake * acc / PRECISION, debt)
    ensures Earned(stake, acc) == stake * acc / PRECISION
  {
  }

  /** Without vesting a claim pays all that is pending, out of the pool's capital and only if the
      pool has it; with vesting it moves it into the schedule, which restarts now. Either way
      nothing stays pending, and a claim with nothing pending changes nothing. */
  lemma RewardRule(l: Liq, p: nat, a: Address, now: nat)
    ensures ClaimRewards(l, p, a, now).Ok?
            <==> && p in l.pools && l.pools[p].isActive && (p, a) in l.providers
                 && (l.pools[p].duration > 0 || Pending(l, p, a) <= l.pools[p].availableCapital)
    ensures ClaimRewards(l, p, a, now).Ok? && Pending(l, p, a) == 0 ==> ClaimRewards(l, p, a, now) == Ok((l, Done(0)))
    ensures ClaimRewards(l, p, a, now).Ok? && Pending(l, p, a) > 0 ==>
              var (l', r), q, v, pending := ClaimRewards(l, p, a, now).value, l.pools[p], l.providers[(p, a)], Pending(l, p, a);
              && OnlyProvider(l, l', p, a) && l'.poolProviders == l.poolProviders && (p, a) in l'.providers
              && var q', v' := l'.pools[p], l'.providers[(p, a)];
              && Synced(q', v')
              && (if q.duration > 0 then
                    && r == VestingStarted(p, a, pending) && q' == q
                    && (v.vestingTotal + pending <= U128_MAX ==> v'.vestingTotal == v.vestingTotal + pending)
                    && v'.vestingStart == now
                    && v' == v.(vestingTotal := v'.vestingTotal, vestingStart := now, rewardDebt := v'.rewardDebt)
                  else
                    && r == RewardsPaid(p, pending) && v' == v.(rewardDebt := v'.rewardDebt)
                    && q'.availableCapital + pending == q.availableCapital
                    && q' == q.(availableCapital := q'.availableCapital))
  {
    hide Earned;
  }

  /** Reinvesting adds all that is pending to stake and capital, though not to the capital that is
      available, and leaves nothing pending. */
  lemma ReinvestmentRule(l: Liq, p: nat, a: Address)
    requires p in l.pools && (p, a) in l.providers ==>
               var pending := Pending(l, p, a);
               l.pools[p].totalStake + pending <= U128_MAX && l.pools[p].totalCapital + pending <= U128_MAX
               && l.providers[(p, a)].stake + pending <= U128_MAX
    ensures Reinvest(l, p, a).Ok? <==> p in l.pools && l.pools[p].isActive && (p, a) in l.providers
    ensures Reinvest(l, p, a).Ok? && Pending(l, p, a) == 0 ==> Reinvest(l, p, a) == Ok((l, Done(0)))
    ensures Reinvest(l, p, a).Ok? && Pending(l, p, a) > 0 ==>
              var (l', r), q, v, pending := Reinvest(l, p, a).value, l.pools[p], l.providers[(p, a)], Pending(l, p, a);
              && r == Reinvested(p, pending)
              && OnlyProvider(l, l', p, a) && l'.poolProviders == l.poolProviders && (p, a) in l'.providers
              && var q', v' := l'.pools[p], l'.providers[(p, a)];
              && Synced(q', v')
              && q'.totalStake == q.totalStake + pending && q'.totalCapital == q.totalCapital + pending
              && q' == q.(totalStake := q'.totalStake, totalCapital := q'.totalCapital)
              && v'.stake == v.stake + pending && v' == v.(stake := v'.stake, rewardDebt := v'.rewardDebt)
  {
    hide Earned;
  }

  /** What a withdrawal takes out of the available capital beyond the principal: the pending reward
      without vesting; with vesting the penalty goes in instead. */
  lemma WithdrawalRule(l: Liq, p: nat, a: Address, amount: nat, now: nat)
    requires Withdraw(l, p, a, amount, now).Ok?
    requires var q, v := l.pools[p], l.providers[(p, a)];
             amount <= q.totalStake && amount <= q.totalCapital && Pending(l, p, a) + amount <= U128_MAX
             && q.availableCapital + Withdraw(l, p, a, amount, now).value.1.penalty <= U128_MAX
    ensures amount > 0 && p in l.pools && l.pools[p].isActive && (p, a) in l.providers && amount <= l.providers[(p, a)].stake
    ensures var (l', r), q, v := Withdraw(l, p, a, amount, now).value, l.pools[p], l.providers[(p, a)];
            && OnlyProvider(l, l', p, a)
            && r.pool == p && r.who == a && r.principal == amount
            && (q.duration > 0 ==> r.rewards == 0 && r.moved == Pending(l, p, a))
            && (q.duration == 0 ==> r.rewards == Pending(l, p, a) && r.moved == 0 && r.penalty == 0)
            && var q' := l'.pools[p];
            && q'.totalStake == q.totalStake - amount && q'.totalCapital == q.totalCapital - amount
            && q'.availableCapital == q.availableCapital + r.penalty - r.rewards - amount
            && q' == q.(totalStake := q'.totalStake, totalCapital := q'.totalCapital, availableCapital := q'.availableCapital)
            && ((p, a) in l'.providers <==> amount < v.stake)
            && ((p, a) in l'.providers ==>
                  var v' := l'.providers[(p, a)];
                  && v'.stake == v.stake - amount && Synced(q', v') && v'.depositedAt == v.depositedAt
                  && (q.duration == 0 ==> v' == v.(stake := v'.stake, rewardDebt := v'.rewardDebt)))
            && ListAt(l'.poolProviders, p) == if (p, a) in l'.providers then ListAt(l.poolProviders, p)
                                              else Without(ListAt(l.poolProviders, p), a)
  {
    hide Earned, Penalty, PendingReward;
    NothingWithout(a);
  }

  lemma NothingWithout(a: Address)
    ensures Without<Address>([], a) == []
  {
  }

  /** A withdrawal is accepted exactly for a positive part of the stake in an active pool that has
      the principal, with the pending reward or after the penalty, available. */
  lemma WithdrawalAccepted(l: Liq, p: nat, a: Address, amount: nat, now: nat)
    requires p in l.pools && (p, a) in l.providers ==> Pending(l, p, a) + amount <= U128_MAX
    ensures Withdraw(l, p, a, amount, now).Ok?
            <==> && amount > 0 && p in l.pools && l.pools[p].isActive
                 && (p, a) in l.providers && amount <= l.providers[(p, a)].stake
                 && (l.pools[p].duration == 0 ==> Pending(l, p, a) + amount <= l.pools[p].availableCapital)
                 && (l.pools[p].duration > 0 ==>
                       amount <= SatAdd(l.pools[p].availableCapital, PenaltyOf(l, p, a, now)))
    ensures Withdraw(l, p, a, amount, now).Ok? && l.pools[p].duration > 0 ==>
              Withdraw(l, p, a, amount, now).value.1.penalty == PenaltyOf(l, p, a, now)
  {
    hide Earned, Penalty, PendingReward, Without;
  }

  /** The penalty of a withdrawal now, once anything pending has restarted the schedule. */
  function PenaltyOf(l: Liq, p: nat, a: Address, now: nat): nat
    requires p in l.pools && (p, a) in l.providers && l.pools[p].duration > 0
  {
    var q, v := l.pools[p], l.providers[(p, a)];
    Penalty(q, if Pending(l, p, a) > 0 then MoveToVesting(v, q.acc, now) else v, now)
  }

  /** With vesting switched off a claim takes the whole vesting total out of the pool, if the pool has
      it, and clears the record; with nothing vesting it changes nothing. */
  lemma UnscheduledRule(l: Liq, p: nat, a: Address, now: nat)
    requires p in l.pools && (p, a) in l.providers && l.pools[p].duration == 0
    ensures var q, v := l.pools[p], l.providers[(p, a)];
            && (ClaimVested(l, p, a, now).Ok? <==> v.vestingTotal <= q.availableCapital || v.vestingTotal == 0)
            && (v.vestingTotal == 0 ==> ClaimVested(l, p, a, now) == Ok((l, Done(0))))
            && (0 < v.vestingTotal <= q.availableCapital ==>
                  var l' := ClaimVested(l, p, a, now).value.0;
                  && OnlyProvider(l, l', p, a) && l'.poolProviders == l.poolProviders && (p, a) in l'.providers
                  && l'.pools[p].availableCapital + v.vestingTotal == q.availableCapital
                  && l'.pools[p] == q.(availableCapital := l'.pools[p].availableCapital)
                  && l'.providers[(p, a)] == v.(vestingTotal := 0, vestingClaimed := 0, vestingStart := 0))
  {
  }

  /** A schedule that starts at time zero never runs: it pays nothing at any time, and a withdrawal
      with nothing pending is penalised on all of it. Without a record a claim is refused. */
  lemma UnstartedRule(l: Liq, p: nat, a: Address, amount: nat, now: nat)
    requires p in l.pools && l.pools[p].duration > 0 && ((p, a) in l.providers ==> l.providers[(p, a)].vestingStart == 0)
    ensures (p, a) in l.providers ==> ClaimVested(l, p, a, now) == Ok((l, Done(0)))
    ensures (p, a) !in l.providers ==> ClaimVested(l, p, a, now) == Err(InsufficientStake)
    ensures Withdraw(l, p, a, amount, now).Ok? && Pending(l, p, a) == 0
            && l.providers[(p, a)].vestingTotal * l.pools[p].penaltyBps <= U128_MAX ==>
              Withdraw(l, p, a, amount, now).value.1.penalty == l.providers[(p, a)].vestingTotal * l.pools[p].penaltyBps / 10_000
  {
    hide Earned, PendingReward, Without, Vested;
    if (p, a) in l.providers {
      var v, q := l.providers[(p, a)], l.pools[p];
      if v.vestingTotal == 0 || q.penaltyBps == 0 {
        assert v.vestingTotal * q.penaltyBps == 0;
      }
    }
  }

  /** A premium share adds to the capital that is available and to the premiums; it raises the index
      by its scaled share of one unit of stake, and not at all while there is none. */
  lemma PremiumRule(q: Pool, share: nat)
    requires q.availableCapital + share <= U128_MAX && q.premiumsCollected + share <= U128_MAX
    requires share * PRECISION <= U128_MAX && q.acc + share * PRECISION <= U128_MAX
    ensures var q' := TakePremium(q, share);
            && q'.availableCapital == q.availableCapital + share && q'.premiumsCollected == q.premiumsCollected + share
            && Accrued(q, share) == (if q.totalStake == 0 then 0 else share)
            && q'.acc == (if q.totalStake == 0 then q.acc else q.acc + share * PRECISION / q.totalStake)
            && q' == q.(availableCapital := q'.availableCapital, premiumsCollected := q'.premiumsCollected, acc := q'.acc)
  {
    if q.totalStake > 0 {
      ProductOrdered(1, q.totalStake, share * PRECISION);
      QuotientWithin(share * PRECISION, q.totalStake, share * PRECISION);
    }
  }
}
