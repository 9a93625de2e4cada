/** What the liquidity messages keep: an independent ledger of everything that was reported,
    and the invariant that ties the stored pools and providers to it. */
module Solvency {
  import opened Common
  import opened Liquidity

  // ---------------------------------------------------------------------------------------
  // The ledger: running totals over the receipts, kept outside the contract
  // ---------------------------------------------------------------------------------------

  /** Totals of one pool. `moved` are rewards that entered vesting; `repaid` is the part of a
      vested payment that had already been paid before; `stakeOps` counts the deposits,
      withdrawals and reinvestments. */
  datatype Books = Books(
    deposited: nat, premiums: nat, accrued: nat, penalties: nat,
    principalOut: nat, rewardsOut: nat, vestedOut: nat, claimsOut: nat,
    moved: nat, reinvested: nat, repaid: nat, stakeOps: nat)

  const NO_BOOKS: Books := Books(0, 0, 0, 0, 0, 0, 0, 0, 0, 0, 0, 0)

  /** Totals of one provider's vesting in one pool. */
  datatype Vesting = Vesting(moved: nat, paid: nat, repaid: nat)

  const NO_VESTING: Vesting := Vesting(0, 0, 0)

  datatype Ledger = Ledger(pools: map<nat, Books>, vesting: map<Key, Vesting>)

  function BooksAt(g: Ledger, p: nat): Books {
    if p in g.pools then g.pools[p] else NO_BOOKS
  }

  function VestingAt(g: Ledger, k: Key): Vesting {
    if k in g.vesting then g.vesting[k] else NO_VESTING
  }

  function PostBooks(b: Books, r: Receipt): Books {
    match r
    case Done(_) => b
    case Deposited(_, amount) => b.(deposited := b.deposited + amount, stakeOps := b.stakeOps + 1)
    case Withdrawn(_, _, principal, rewards, moved, penalty) =>
      b.(principalOut := b.principalOut + principal, rewardsOut := b.rewardsOut + rewards,
         moved := b.moved + moved, penalties := b.penalties + penalty, stakeOps := b.stakeOps + 1)
    case RewardsPaid(_, amount) => b.(rewardsOut := b.rewardsOut + amount)
    case VestingStarted(_, _, amount) => b.(moved := b.moved + amount)
    case Reinvested(_, amount) => b.(reinvested := b.reinvested + amount, stakeOps := b.stakeOps + 1)
    case VestedPaid(_, _, amount, repaid) => b.(vestedOut := b.vestedOut + amount, repaid := b.repaid + repaid)
    case PremiumTaken(_, _, share, accrued) => b.(premiums := b.premiums + share, accrued := b.accrued + accrued)
    case ClaimPaid(_, amount) => b.(claimsOut := b.claimsOut + amount)
  }

  function PostVesting(t: Vesting, r: Receipt): Vesting {
    match r
    case Withdrawn(_, _, _, _, moved, _) => t.(moved := t.moved + moved)
    case VestingStarted(_, _, amount) => t.(moved := t.moved + amount)
    case VestedPaid(_, _, amount, repaid) => t.(paid := t.paid + amount, repaid := t.repaid + repaid)
    case _ => t
  }

  function Post(g: Ledger, r: Receipt): Ledger {
    if r.Done? then g
    else
      var pools := g.pools[r.pool := PostBooks(BooksAt(g, r.pool), r)];
      if r.Withdrawn? || r.VestingStarted? || r.VestedPaid? then
        var k := (r.pool, r.who);
        Ledger(pools, g.vesting[k := PostVesting(VestingAt(g, k), r)])
      else
        g.(pools := pools)
  }

  /** The only headroom the theorems ask for: the native currency that flowed into the pool,
      with premiums counted twice, and one unit per stake change, fit the balance type. */
  ghost predicate Fits(b: Books) {
    b.deposited + 2 * b.premiums + b.stakeOps <= U128_MAX
  }

  ghost predicate FitsAll(g: Ledger) {
    forall p: nat :: Fits(BooksAt(g, p))
  }

  lemma PostGrows(g: Ledger, r: Receipt)
    requires FitsAll(Post(g, r))
    ensures FitsAll(g)
  {
    forall p: nat ensures Fits(BooksAt(g, p)) {
      assert Fits(BooksAt(Post(g, r), p));
    }
  }

  // ---------------------------------------------------------------------------------------
  // Sums over a pool's providers
  // ---------------------------------------------------------------------------------------

  /** Scaled rewards a provider could still draw at index `acc`: the proof's potential. */
  function Potential(v: Provider, acc: nat): nat {
    Pos(SatMul(v.stake, acc) - PRECISION * v.rewardDebt)
  }

  function StakeOf(p: nat): (Key, Provider) -> int {
    (k: Key, v: Provider) => if k.0 == p then v.stake else 0
  }

  function PotentialOf(p: nat, acc: nat): (Key, Provider) -> int {
    (k: Key, v: Provider) => if k.0 == p then Potential(v, acc) else 0
  }

  function PendingOf(p: nat, acc: nat): (Key, Provider) -> int {
    (k: Key, v: Provider) => if k.0 == p then PendingReward(v.stake, acc, v.rewardDebt) else 0
  }

  function VestingOf(p: nat): (Key, Provider) -> int {
    (k: Key, v: Provider) => if k.0 == p then v.vestingTotal else 0
  }

  function OutstandingOf(p: nat): (Key, Provider) -> int {
    (k: Key, v: Provider) => if k.0 == p then Outstanding(v) else 0
  }

  datatype Sums = Sums(stake: int, potential: int, vesting: int, outstanding: int)

  ghost function SumsOf(ps: Providers, p: nat, acc: nat): Sums {
    Sums(SumBy(ps, StakeOf(p)), SumBy(ps, PotentialOf(p, acc)), SumBy(ps, VestingOf(p)), SumBy(ps, OutstandingOf(p)))
  }

  function Swap(t: Sums, v: Provider, v': Provider, acc: nat): Sums {
    Sums(t.stake - v.stake + v'.stake,
         t.potential - Potential(v, acc) + Potential(v', acc),
         t.vesting - v.vestingTotal + v'.vestingTotal,
         t.outstanding - Outstanding(v) + Outstanding(v'))
  }

  /** The sums include `v`'s own contribution and are otherwise non-negative. */
  ghost predicate Includes(t: Sums, v: Provider, acc: nat) {
    v.stake <= t.stake && Potential(v, acc) <= t.potential && v.vestingTotal <= t.vesting && Outstanding(v) <= t.outstanding
  }

  lemma NonNegative(ps: Providers, p: nat, acc: nat)
    ensures forall k: Key | k in ps :: StakeOf(p)(k, ps[k]) >= 0
    ensures forall k: Key | k in ps :: PotentialOf(p, acc)(k, ps[k]) >= 0
    ensures forall k: Key | k in ps :: PendingOf(p, acc)(k, ps[k]) >= 0
    ensures forall k: Key | k in ps :: VestingOf(p)(k, ps[k]) >= 0
    ensures forall k: Key | k in ps :: OutstandingOf(p)(k, ps[k]) >= 0
  {
    forall k: Key | k in ps ensures StakeOf(p)(k, ps[k]) >= 0 && VestingOf(p)(k, ps[k]) >= 0 {
      assert ps[k].stake >= 0 && ps[k].vestingTotal >= 0;
    }
    forall k: Key | k in ps ensures PotentialOf(p, acc)(k, ps[k]) >= 0 {
      assert Potential(ps[k], acc) >= 0;
    }
    forall k: Key | k in ps ensures PendingOf(p, acc)(k, ps[k]) >= 0 {
      assert PendingReward(ps[k].stake, acc, ps[k].rewardDebt) >= 0;
    }
    forall k: Key | k in ps ensures OutstandingOf(p)(k, ps[k]) >= 0 {
      assert Outstanding(ps[k]) >= 0;
    }
  }

  lemma SumsInclude(ps: Providers, k: Key, acc: nat)
    ensures Includes(SumsOf(ps, k.0, acc), ProviderAt(ps, k), acc)
  {
    NonNegative(ps, k.0, acc);
    SumTerm(ps, StakeOf(k.0));
    SumTerm(ps, PotentialOf(k.0, acc));
    SumTerm(ps, VestingOf(k.0));
    SumTerm(ps, OutstandingOf(k.0));
    if k in ps {
      assert StakeOf(k.0)(k, ps[k]) == ps[k].stake;
      assert PotentialOf(k.0, acc)(k, ps[k]) == Potential(ps[k], acc);
      assert VestingOf(k.0)(k, ps[k]) == ps[k].vestingTotal;
      assert OutstandingOf(k.0)(k, ps[k]) == Outstanding(ps[k]);
    }
  }

  lemma SumsAfterStore(ps: Providers, k: Key, v: Provider, p: nat, acc: nat)
    ensures SumsOf(ps[k := v], p, acc)
         == if p == k.0 then Swap(SumsOf(ps, p, acc), ProviderAt(ps, k), v, acc) else SumsOf(ps, p, acc)
  {
    SumInsert(ps, k, v, StakeOf(p));
    SumInsert(ps, k, v, PotentialOf(p, acc));
    SumInsert(ps, k, v, VestingOf(p));
    SumInsert(ps, k, v, OutstandingOf(p));
  }

  lemma SumsAfterDrop(ps: Providers, k: Key, p: nat, acc: nat)
    ensures SumsOf(ps - {k}, p, acc)
         == if p == k.0 then Swap(SumsOf(ps, p, acc), ProviderAt(ps, k), NO_PROVIDER, acc) else SumsOf(ps, p, acc)
  {
    if k in ps {
      SumRemove(ps, k, StakeOf(p));
      SumRemove(ps, k, PotentialOf(p, acc));
      SumRemove(ps, k, VestingOf(p));
      SumRemove(ps, k, OutstandingOf(p));
    } else {
      assert ps - {k} == ps;
    }
  }

  // ---------------------------------------------------------------------------------------
  // The invariant of one pool
  // ---------------------------------------------------------------------------------------

  ghost predicate Sound(q: Pool, b: Books, t: Sums) {
    // Stakes and capital are exactly what the ledger says; nothing ever saturated or clipped.
    && q.acc <= U128_MAX
    && q.totalStake == t.stake
    && q.totalCapital == q.totalStake
    && q.totalStake + b.principalOut == b.deposited + b.reinvested
    && q.availableCapital + b.principalOut + b.rewardsOut + b.vestedOut + b.claimsOut
       == b.deposited + b.premiums + b.penalties
    && q.claimsPaid == b.claimsOut
    && q.premiumsCollected == b.premiums
    && b.accrued <= b.premiums
    // Rewards handed out and still to come are backed by what accrued, up to rounding dust.
    && 0 <= t.potential
    && PRECISION * (b.rewardsOut + b.reinvested + b.moved) + t.potential
       <= PRECISION * b.accrued + (PRECISION - 1) * b.stakeOps
    // Vesting entries are backed by what was moved into vesting.
    && 0 <= t.vesting && t.vesting + b.penalties <= b.moved
    && 0 <= t.outstanding && b.vestedOut + t.outstanding <= b.moved + b.repaid
    && q.penaltyBps <= BPS && q.cliff <= q.duration
  }

  lemma RewardsWithinAccrued(q: Pool, b: Books, t: Sums)
    requires Sound(q, b, t)
    ensures b.rewardsOut + b.reinvested + b.moved <= b.accrued + b.stakeOps
  {
  }

  lemma EarnedParts(stake: nat, acc: nat)
    ensures PRECISION * Earned(stake, acc) <= SatMul(stake, acc) < PRECISION * Earned(stake, acc) + PRECISION
  {
  }

  lemma SatMulSplits(x: nat, y: nat, acc: nat)
    ensures SatMul(x + y, acc) <= SatMul(x, acc) + SatMul(y, acc)
  {
    assert (x + y) * acc == x * acc + y * acc;
  }

  /** A deposit adds less than one scaled unit of potential. */
  lemma StakedPotential(v: Provider, amount: nat, acc: nat, debt: nat)
    requires debt == SatAdd(v.rewardDebt, SatMul(amount, acc) / PRECISION)
    ensures Potential(v.(stake := v.stake + amount, rewardDebt := debt), acc) <= Potential(v, acc) + PRECISION - 1
  {
    SatMulSplits(v.stake, amount, acc);
    EarnedParts(amount, acc);
  }

  /** Syncing the debt turns potential into paid rewards and leaves less than one unit. */
  lemma SyncedPotential(v: Provider, stake: nat, acc: nat)
    ensures Potential(v.(stake := stake, rewardDebt := Earned(stake, acc)), acc) <= PRECISION - 1
    ensures PRECISION * PendingReward(v.stake, acc, v.rewardDebt) <= Potential(v, acc)
  {
    EarnedParts(stake, acc);
    EarnedParts(v.stake, acc);
  }

  /** Paying out pending rewards at an unchanged stake is exact. */
  lemma PaidPotential(v: Provider, acc: nat)
    requires PendingReward(v.stake, acc, v.rewardDebt) > 0
    ensures PRECISION * PendingReward(v.stake, acc, v.rewardDebt)
          + Potential(v.(rewardDebt := Earned(v.stake, acc)), acc) == Potential(v, acc)
  {
    EarnedParts(v.stake, acc);
  }

  lemma DepositSound(q: Pool, b: Books, t: Sums, v: Provider, amount: nat, r: Receipt)
    requires Sound(q, b, t) && Includes(t, v, q.acc)
    requires r.Deposited? && r.amount == amount && Fits(PostBooks(b, r))
    ensures var (q', v') := Staked(q, v, amount);
            q'.acc == q.acc && Sound(q', PostBooks(b, r), Swap(t, v, v', q.acc))
  {
    RewardsWithinAccrued(q, b, t);
    var (q', v') := Staked(q, v, amount);
    StakedPotential(v, amount, q.acc, v'.rewardDebt);
    assert Potential(v', q.acc) == Potential(v.(stake := v'.stake, rewardDebt := v'.rewardDebt), q.acc);
  }

  lemma ClaimSound(q: Pool, b: Books, t: Sums, v: Provider, r: Receipt)
    requires Sound(q, b, t) && Includes(t, v, q.acc) && Fits(b)
    requires r.RewardsPaid? && r.amount == PendingReward(v.stake, q.acc, v.rewardDebt)
    requires 0 < r.amount <= q.availableCapital
    ensures Sound(q.(availableCapital := SatSub(q.availableCapital, r.amount)), PostBooks(b, r),
                  Swap(t, v, v.(rewardDebt := Earned(v.stake, q.acc)), q.acc))
  {
    PaidPotential(v, q.acc);
  }

  lemma MoveSound(q: Pool, b: Books, t: Sums, v: Provider, now: nat, r: Receipt)
    requires Sound(q, b, t) && Includes(t, v, q.acc) && Fits(b)
    requires r.VestingStarted? && r.amount == PendingReward(v.stake, q.acc, v.rewardDebt) > 0
    ensures Sound(q, PostBooks(b, r), Swap(t, v, MoveToVesting(v, q.acc, now), q.acc))
  {
    PaidPotential(v, q.acc);
    var v' := MoveToVesting(v, q.acc, now);
    assert Potential(v', q.acc) == Potential(v.(rewardDebt := Earned(v.stake, q.acc)), q.acc);
  }

  lemma ReinvestSound(q: Pool, b: Books, t: Sums, v: Provider, r: Receipt)
    requires Sound(q, b, t) && Includes(t, v, q.acc)
    requires r.Reinvested? && r.amount == PendingReward(v.stake, q.acc, v.rewardDebt) > 0
    requires Fits(PostBooks(b, r))
    ensures var stake := SatAdd(v.stake, r.amount);
            Sound(q.(totalStake := SatAdd(q.totalStake, r.amount), totalCapital := SatAdd(q.totalCapital, r.amount)),
                  PostBooks(b, r), Swap(t, v, v.(stake := stake, rewardDebt := Earned(stake, q.acc)), q.acc))
  {
    SyncedPotential(v, SatAdd(v.stake, r.amount), q.acc);
    RewardsWithinAccrued(q, b, t);
    assert b.rewardsOut + b.reinvested + r.amount + b.moved <= b.accrued + b.stakeOps + 1;
  }

  lemma QuotientWithin(x: nat, d: nat, bound: nat)
    requires d > 0 && x <= bound * d
    ensures x / d <= bound
  {
    if bound < x / d {
      ProductOrdered(bound + 1, x / d, d);
      assert false;
    }
  }

  lemma VestedWithin(total: nat, elapsed: nat, cliff: nat, duration: nat)
    requires duration > 0
    ensures Vested(total, elapsed, cliff, duration) <= total
  {
    var secs := if elapsed >= duration then duration else elapsed;
    ProductOrdered(secs, duration, total);
    QuotientWithin(SatMul(total, secs), duration, total);
  }

  lemma PenaltyWithin(q: Pool, v: Provider, now: nat)
    requires q.duration > 0 && q.penaltyBps <= BPS
    ensures Penalty(q, v, now) <= v.vestingTotal
  {
    var unvested := Unvested(q, v, now);
    ProductOrdered(q.penaltyBps, BPS, unvested);
    QuotientWithin(SatMul(unvested, q.penaltyBps), BPS, unvested);
  }

  /** The principal leg of a withdrawal, after rewards were paid or moved. */
  lemma UnstakeSound(q: Pool, b: Books, t: Sums, v: Provider, amount: nat, rewards: nat, moved: nat, penalty: nat, v1: Provider, r: Receipt)
    requires Sound(q, b, t) && Includes(t, v, q.acc)
    requires r.Withdrawn? && r.principal == amount && r.rewards == rewards && r.moved == moved && r.penalty == penalty
    requires Fits(PostBooks(b, r))
    requires 0 < amount <= v.stake && v1.stake == v.stake
    requires rewards + moved == PendingReward(v.stake, q.acc, v.rewardDebt)
    requires v1.vestingTotal == v.vestingTotal + moved - penalty && v1.vestingClaimed == v.vestingClaimed
    requires amount + rewards <= q.availableCapital + penalty
    ensures q.availableCapital + penalty <= U128_MAX
    ensures var (q', v') := Unstaked(q.(availableCapital := q.availableCapital + penalty), v1, amount, amount + rewards);
            q'.acc == q.acc && Sound(q', PostBooks(b, r), Swap(t, v, v', q.acc))
  {
    SyncedPotential(v, SatSub(v.stake, amount), q.acc);
    var (q', v') := Unstaked(q.(availableCapital := q.availableCapital + penalty), v1, amount, amount + rewards);
    assert Potential(v', q.acc) == Potential(v.(stake := v'.stake, rewardDebt := v'.rewardDebt), q.acc);
    RewardsWithinAccrued(q, b, t);
    var b' := PostBooks(b, r);
    assert b'.penalties <= b'.moved;
    assert b'.rewardsOut + b'.reinvested + b'.moved <= b'.accrued + b'.stakeOps;
  }

  lemma VestedSound(q: Pool, b: Books, t: Sums, v: Provider, r: Receipt, v': Provider)
    requires Sound(q, b, t) && Includes(t, v, q.acc)
    requires r.VestedPaid? && r.amount <= q.availableCapital
    requires v'.stake == v.stake && v'.rewardDebt == v.rewardDebt && v'.vestingTotal <= v.vestingTotal
    requires Outstanding(v') + r.amount <= Outstanding(v) + r.repaid
    ensures Sound(q.(availableCapital := SatSub(q.availableCapital, r.amount)), PostBooks(b, r), Swap(t, v, v', q.acc))
  {
    assert Potential(v', q.acc) == Potential(v, q.acc);
  }

  /** Claiming from the schedule keeps what was paid and what is left within what was owed. */
  lemma ClaimVestedLocal(v: Provider, vested: nat)
    requires v.vestingClaimed < vested <= v.vestingTotal <= U128_MAX
    ensures var claimable := SatSub(vested, v.vestingClaimed);
            Outstanding(TakeVested(v, claimable)) + claimable == Outstanding(v)
            && TakeVested(v, claimable).vestingTotal <= v.vestingTotal
  {
  }

  lemma PremiumSound(q: Pool, b: Books, ps: Providers, p: nat, share: nat, r: Receipt)
    requires Sound(q, b, SumsOf(ps, p, q.acc))
    requires r.PremiumTaken? && r.share == share && r.accrued == Accrued(q, share)
    requires Fits(PostBooks(b, r))
    ensures var q' := TakePremium(q, share); Sound(q', PostBooks(b, r), SumsOf(ps, p, q'.acc))
  {
    RewardsWithinAccrued(q, b, SumsOf(ps, p, q.acc));
    var q' := TakePremium(q, share);
    if share != 0 && q.totalStake != 0 {
      var inc := q'.acc - q.acc;
      PotentialGrows(ps, p, q.acc, q'.acc);
      AccrualWithin(share, q.totalStake);
      ProductOrdered(inc, AccrualStep(share, q.totalStake), q.totalStake);
    }
  }

  lemma AccrualWithin(reward: nat, totalStake: nat)
    requires totalStake > 0
    ensures AccrualStep(reward, totalStake) * totalStake <= reward * PRECISION
  {
    var x := SatMul(reward, PRECISION);
    assert x / totalStake * totalStake <= x;
  }

  lemma PotentialStep(v: Provider, acc: nat, acc': nat)
    requires acc <= acc'
    ensures Potential(v, acc') <= Potential(v, acc) + (acc' - acc) * v.stake
  {
    assert v.stake * acc' == v.stake * acc + (acc' - acc) * v.stake;
    assert 0 <= (acc' - acc) * v.stake;
  }

  lemma PotentialGrows(ps: Providers, p: nat, acc: nat, acc': nat)
    requires acc <= acc'
    ensures SumBy(ps, PotentialOf(p, acc')) <= SumBy(ps, PotentialOf(p, acc)) + (acc' - acc) * SumBy(ps, StakeOf(p))
    ensures SumBy(ps, PotentialOf(p, acc')) >= 0
  {
    forall k: Key | k in ps
      ensures PotentialOf(p, acc')(k, ps[k]) <= PotentialOf(p, acc)(k, ps[k]) + (acc' - acc) * StakeOf(p)(k, ps[k])
    {
      PotentialStep(ps[k], acc, acc');
    }
    NonNegative(ps, p, acc');
    SumBound(ps, PotentialOf(p, acc'), PotentialOf(p, acc), acc' - acc, StakeOf(p));
    SumTerm(ps, PotentialOf(p, acc'));
  }

  // ---------------------------------------------------------------------------------------
  // The invariant of all pools and providers, and what every message does to it
  // ---------------------------------------------------------------------------------------

  ghost predicate PoolSound(l: Liq, g: Ledger, p: nat)
    requires p in l.pools
  {
    Sound(l.pools[p], BooksAt(g, p), SumsOf(l.providers, p, l.pools[p].acc))
  }

  /** A provider's paid and outstanding vesting stays within what was moved, plus repayments. */
  ghost predicate VestingSound(v: Provider, t: Vesting) {
    && v.vestingTotal <= U128_MAX
    && t.paid + Outstanding(v) <= t.moved + t.repaid
  }

  /** The provider list of each pool names exactly its providers, once each. */
  ghost predicate Listed(l: Liq) {
    && (forall p: nat :: NoDuplicates(ListAt(l.poolProviders, p)))
    && (forall p: nat, a: Address :: a in ListAt(l.poolProviders, p) <==> (p, a) in l.providers)
  }

  ghost predicate PoolsSound(l: Liq, g: Ledger) {
    && (forall p: nat | p in l.pools :: 1 <= p <= l.poolCount && PoolSound(l, g, p))
    && (forall p: nat | p !in l.pools :: BooksAt(g, p) == NO_BOOKS)
    && (forall k: Key | k in l.providers :: k.0 in l.pools && l.providers[k].stake > 0)
  }

  ghost predicate VestingsSound(ps: Providers, g: Ledger) {
    forall k: Key :: VestingSound(ProviderAt(ps, k), VestingAt(g, k))
  }

  ghost predicate Inv(l: Liq, g: Ledger) {
    PoolsSound(l, g) && VestingsSound(l.providers, g) && Listed(l)
  }

  /** Only pool `p` and its provider `a` may differ, and what differs is sound again. */
  lemma PoolsSoundAfter(l: Liq, l': Liq, g: Ledger, g': Ledger, p: nat)
    requires PoolsSound(l, g) && p in l.pools && p in l'.pools && PoolSound(l', g', p)
    requires l'.poolCount == l.poolCount && l'.pools == l.pools[p := l'.pools[p]]
    requires forall p': nat | p' != p :: BooksAt(g', p') == BooksAt(g, p')
    requires forall p': nat | p' in l.pools && p' != p ::
               SumsOf(l'.providers, p', l.pools[p'].acc) == SumsOf(l.providers, p', l.pools[p'].acc)
    requires forall k: Key | k in l'.providers :: k.0 in l.pools && l'.providers[k].stake > 0
    ensures PoolsSound(l', g')
  {
    forall p': nat | p' in l'.pools ensures 1 <= p' <= l'.poolCount && PoolSound(l', g', p') {
      assert p' != p ==> PoolSound(l, g, p');
    }
  }

  lemma StorePools(l: Liq, g: Ledger, p: nat, a: Address, q: Pool, v: Provider, r: Receipt)
    requires PoolsSound(l, g) && p in l.pools && q.acc == l.pools[p].acc && v.stake > 0
    requires !r.Done? && r.pool == p
    requires Sound(q, PostBooks(BooksAt(g, p), r), Swap(SumsOf(l.providers, p, q.acc), ProviderAt(l.providers, (p, a)), v, q.acc))
    ensures PoolsSound(Enlist(Store(l, p, a, q, v), p, a), Post(g, r))
  {
    hide Sound, SumsOf, Swap, PostBooks;
    var l' := Enlist(Store(l, p, a, q, v), p, a);
    SumsAfterStore(l.providers, (p, a), v, p, q.acc);
    forall p': nat | p' in l.pools && p' != p
      ensures SumsOf(l'.providers, p', l.pools[p'].acc) == SumsOf(l.providers, p', l.pools[p'].acc)
    {
      SumsAfterStore(l.providers, (p, a), v, p', l.pools[p'].acc);
    }
    PoolsSoundAfter(l, l', g, Post(g, r), p);
  }

  /** A provider who leaves forfeits whatever vesting the record still showed. */
  lemma DropSound(q: Pool, b: Books, t: Sums, v: Provider, v': Provider, acc: nat)
    requires Sound(q, b, Swap(t, v, v', acc)) && Includes(t, v, acc) && v'.stake == 0
    ensures Sound(q, b, Swap(t, v, NO_PROVIDER, acc))
  {
    assert Potential(v', acc) == 0 == Potential(NO_PROVIDER, acc);
  }

  lemma DropPools(l: Liq, g: Ledger, p: nat, a: Address, q: Pool, v: Provider, r: Receipt)
    requires PoolsSound(l, g) && p in l.pools && q.acc == l.pools[p].acc && v.stake == 0
    requires !r.Done? && r.pool == p
    requires Sound(q, PostBooks(BooksAt(g, p), r), Swap(SumsOf(l.providers, p, q.acc), ProviderAt(l.providers, (p, a)), v, q.acc))
    ensures PoolsSound(Drop(l, p, a, q), Post(g, r))
  {
    hide Sound, Swap, PostBooks;
    var l' := Drop(l, p, a, q);
    SumsAfterDrop(l.providers, (p, a), p, q.acc);
    SumsInclude(l.providers, (p, a), q.acc);
    DropSound(q, PostBooks(BooksAt(g, p), r), SumsOf(l.providers, p, q.acc), ProviderAt(l.providers, (p, a)), v, q.acc);
    forall p': nat | p' in l.pools && p' != p
      ensures SumsOf(l'.providers, p', l.pools[p'].acc) == SumsOf(l.providers, p', l.pools[p'].acc)
    {
      SumsAfterDrop(l.providers, (p, a), p', l.pools[p'].acc);
    }
    PoolsSoundAfter(l, l', g, Post(g, r), p);
  }

  lemma VestingsAfter(ps: Providers, ps': Providers, g: Ledger, k: Key, r: Receipt)
    requires VestingsSound(ps, g)
    requires forall j: Key | j != k :: ProviderAt(ps', j) == ProviderAt(ps, j)
    requires !r.Done? && r.pool == k.0
    requires (r.Withdrawn? || r.VestingStarted? || r.VestedPaid?) ==> r.who == k.1
    requires VestingSound(ProviderAt(ps', k), PostVesting(VestingAt(g, k), r))
    ensures VestingsSound(ps', Post(g, r))
  {
    var g' := Post(g, r);
    forall j: Key ensures VestingSound(ProviderAt(ps', j), VestingAt(g', j)) {
      assert VestingSound(ProviderAt(ps, j), VestingAt(g, j));
      if j == k {
        assert VestingAt(g', k) == PostVesting(VestingAt(g, k), r);
      } else {
        assert VestingAt(g', j) == VestingAt(g, j);
      }
    }
  }

  lemma StoreListed(l: Liq, p: nat, a: Address, q: Pool, v: Provider)
    requires Listed(l)
    ensures Listed(Enlist(Store(l, p, a, q, v), p, a))
  {
    var l' := Enlist(Store(l, p, a, q, v), p, a);
    forall p': nat, b: Address ensures b in ListAt(l'.poolProviders, p') <==> (p', b) in l'.providers {
      assert b in ListAt(l.poolProviders, p') <==> (p', b) in l.providers;
    }
    forall p': nat ensures NoDuplicates(ListAt(l'.poolProviders, p')) {
      assert NoDuplicates(ListAt(l.poolProviders, p'));
    }
  }

  lemma DropListed(l: Liq, p: nat, a: Address, q: Pool)
    requires Listed(l)
    ensures Listed(Drop(l, p, a, q))
  {
    var l' := Drop(l, p, a, q);
    forall p': nat ensures NoDuplicates(ListAt(l'.poolProviders, p')) {
      assert NoDuplicates(ListAt(l.poolProviders, p'));
      WithoutNoDuplicates(ListAt(l.poolProviders, p'), a);
    }
    forall p': nat, b: Address ensures b in ListAt(l'.poolProviders, p') <==> (p', b) in l'.providers {
      assert b in ListAt(l.poolProviders, p') <==> (p', b) in l.providers;
    }
  }

  lemma StoreKeepsInv(l: Liq, g: Ledger, p: nat, a: Address, q: Pool, v: Provider, r: Receipt)
    requires Inv(l, g) && p in l.pools && q.acc == l.pools[p].acc && v.stake > 0
    requires !r.Done? && r.pool == p
    requires (r.Withdrawn? || r.VestingStarted? || r.VestedPaid?) ==> r.who == a
    requires Sound(q, PostBooks(BooksAt(g, p), r), Swap(SumsOf(l.providers, p, q.acc), ProviderAt(l.providers, (p, a)), v, q.acc))
    requires VestingSound(v, PostVesting(VestingAt(g, (p, a)), r))
    ensures Inv(Enlist(Store(l, p, a, q, v), p, a), Post(g, r))
    ensures (p, a) in l.providers ==> Enlist(Store(l, p, a, q, v), p, a) == Store(l, p, a, q, v)
  {
    hide PoolsSound, Sound, Swap, PostBooks, PostVesting, VestingSound;
    StorePools(l, g, p, a, q, v, r);
    VestingsAfter(l.providers, Store(l, p, a, q, v).providers, g, (p, a), r);
    StoreListed(l, p, a, q, v);
  }

  lemma DropKeepsInv(l: Liq, g: Ledger, p: nat, a: Address, q: Pool, v: Provider, r: Receipt)
    requires Inv(l, g) && p in l.pools && q.acc == l.pools[p].acc && v.stake == 0
    requires r.Withdrawn? && r.pool == p && r.who == a
    requires Sound(q, PostBooks(BooksAt(g, p), r), Swap(SumsOf(l.providers, p, q.acc), ProviderAt(l.providers, (p, a)), v, q.acc))
    requires VestingSound(v, PostVesting(VestingAt(g, (p, a)), r))
    ensures Inv(Drop(l, p, a, q), Post(g, r))
  {
    hide Sound, Swap, PostBooks, PostVesting;
    DropPools(l, g, p, a, q, v, r);
    VestingsAfter(l.providers, Drop(l, p, a, q).providers, g, (p, a), r);
    DropListed(l, p, a, q);
  }

  /** Storing a pool alone: an accrual, a payout, or fields the ledger does not see. */
  lemma PoolKeepsInv(l: Liq, g: Ledger, p: nat, q: Pool, r: Receipt)
    requires Inv(l, g) && p in l.pools
    requires r.Done? || (r.pool == p && (r.PremiumTaken? || r.ClaimPaid?))
    requires Sound(q, BooksAt(Post(g, r), p), SumsOf(l.providers, p, q.acc))
    ensures Inv(l.(pools := l.pools[p := q]), Post(g, r))
  {
    hide Sound, PostBooks;
    var l' := l.(pools := l.pools[p := q]);
    PoolsSoundAfter(l, l', g, Post(g, r), p);
    assert Post(g, r).vesting == g.vesting;
    forall k: Key ensures VestingSound(ProviderAt(l'.providers, k), VestingAt(Post(g, r), k)) {
      assert VestingSound(ProviderAt(l.providers, k), VestingAt(g, k));
    }
  }

  /** What the invariant says about one pool and one of its accounts. */
  lemma Known(l: Liq, g: Ledger, p: nat, a: Address, r: Receipt)
    requires Inv(l, g) && p in l.pools && !r.Done? && r.pool == p && FitsAll(Post(g, r))
    ensures Sound(l.pools[p], BooksAt(g, p), SumsOf(l.providers, p, l.pools[p].acc))
    ensures Includes(SumsOf(l.providers, p, l.pools[p].acc), ProviderAt(l.providers, (p, a)), l.pools[p].acc)
    ensures VestingSound(ProviderAt(l.providers, (p, a)), VestingAt(g, (p, a)))
    ensures Fits(BooksAt(g, p)) && Fits(PostBooks(BooksAt(g, p), r))
    ensures (p, a) in l.providers ==> l.providers[(p, a)].stake > 0
  {
    hide Sound, Includes, PostBooks;
    assert PoolSound(l, g, p);
    PostGrows(g, r);
    assert Fits(BooksAt(Post(g, r), p));
    SumsInclude(l.providers, (p, a), l.pools[p].acc);
  }

  /** What a successful message leaves: the invariant, for the ledger with its receipt posted. */
  ghost predicate Keeps(g: Ledger, reply: Reply) {
    reply.Ok? && FitsAll(Post(g, reply.value.1)) ==> Inv(reply.value.0, Post(g, reply.value.1))
  }

  lemma CreatePoolKeeps(l: Liq, g: Ledger, named: bool, ratio: nat, threshold: nat)
    requires Inv(l, g)
    ensures Keeps(g, CreatePool(l, named, ratio, threshold))
  {
    var reply := CreatePool(l, named, ratio, threshold);
    if reply.Ok? {
      var l' := reply.value.0;
      var id := l'.poolCount;
      assert id !in l.pools;
      EmptySums(l.providers, id, 0);
      forall p: nat | p in l'.pools ensures PoolSound(l', g, p) {
        assert p != id ==> PoolSound(l, g, p);
      }
    }
  }

  lemma EmptySums(ps: Providers, p: nat, acc: nat)
    requires forall k: Key | k in ps :: k.0 != p
    ensures SumsOf(ps, p, acc) == Sums(0, 0, 0, 0)
  {
    var zero := (k: Key, v: Provider) => 0;
    ZeroSum(ps, zero);
    SumCongruent(ps, StakeOf(p), zero);
    SumCongruent(ps, PotentialOf(p, acc), zero);
    SumCongruent(ps, VestingOf(p), zero);
    SumCongruent(ps, OutstandingOf(p), zero);
  }

  lemma {:induction false} ZeroSum(ps: Providers, f: (Key, Provider) -> int)
    requires forall k: Key | k in ps :: f(k, ps[k]) == 0
    ensures SumBy(ps, f) == 0
    decreases |ps|
  {
    if ps != map[] {
      var k :| k in ps;
      SumRemove(ps, k, f);
      ZeroSum(ps - {k}, f);
    }
  }

  lemma ConfigureVestingKeeps(l: Liq, g: Ledger, p: nat, cliff: nat, duration: nat, bps: nat)
    requires Inv(l, g)
    ensures Keeps(g, ConfigureVesting(l, p, cliff, duration, bps))
  {
    var reply := ConfigureVesting(l, p, cliff, duration, bps);
    if reply.Ok? {
      assert PoolSound(l, g, p);
      PoolKeepsInv(l, g, p, reply.value.0.pools[p], reply.value.1);
    }
  }

  lemma SwapIgnoresDate(t: Sums, v: Provider, w: Provider, v': Provider, acc: nat)
    requires w == v.(depositedAt := w.depositedAt)
    ensures Swap(t, v, v', acc) == Swap(t, w, v', acc)
    ensures Includes(t, v, acc) <==> Includes(t, w, acc)
  {
  }

  lemma DepositKeeps(l: Liq, g: Ledger, p: nat, a: Address, amount: nat, now: nat)
    requires Inv(l, g)
    ensures Keeps(g, Deposit(l, p, a, amount, now))
  {
    hide PoolsSound, VestingsSound, FitsAll, Sound, Swap, PostBooks, Includes;
    var reply := Deposit(l, p, a, amount, now);
    if reply.Ok? && FitsAll(Post(g, reply.value.1)) {
      var r, q, k := reply.value.1, l.pools[p], (p, a);
      var v := if k in l.providers then l.providers[k] else NO_PROVIDER.(depositedAt := now);
      var (q', v') := Staked(q, v, amount);
      Known(l, g, p, a, r);
      SwapIgnoresDate(SumsOf(l.providers, p, q.acc), v, ProviderAt(l.providers, k), v, q.acc);
      DepositSound(q, BooksAt(g, p), SumsOf(l.providers, p, q.acc), v, amount, r);
      SwapIgnoresDate(SumsOf(l.providers, p, q.acc), v, ProviderAt(l.providers, k), v', q.acc);
      StoreKeepsInv(l, g, p, a, q', v', r);
    }
  }

  /** A single provider's pending rewards fit both the accrual and the balance type. */
  lemma PendingWithin(q: Pool, b: Books, t: Sums, v: Provider)
    requires Sound(q, b, t) && Includes(t, v, q.acc) && Fits(b)
    ensures b.rewardsOut + b.reinvested + b.moved + PendingReward(v.stake, q.acc, v.rewardDebt) <= b.accrued + b.stakeOps
    ensures v.vestingTotal + PendingReward(v.stake, q.acc, v.rewardDebt) <= U128_MAX
  {
    SyncedPotential(v, v.stake, q.acc);
  }

  /** The provider after rewards moved and the penalty was taken, before principal leaves. */
  function BeforeUnstake(q: Pool, v: Provider, now: nat): (Provider, nat) {
    if q.duration == 0 then (v, 0)
    else
      var v1 := if PendingReward(v.stake, q.acc, v.rewardDebt) > 0 then MoveToVesting(v, q.acc, now) else v;
      var penalty := Penalty(q, v1, now);
      (v1.(vestingTotal := SatSub(v1.vestingTotal, penalty)), penalty)
  }

  lemma WithdrawSound(q: Pool, b: Books, t: Sums, v: Provider, amount: nat, now: nat, r: Receipt)
    requires Sound(q, b, t) && Includes(t, v, q.acc) && v.vestingTotal <= U128_MAX
    requires r.Withdrawn? && r.principal == amount && Fits(b) && Fits(PostBooks(b, r))
    requires r.rewards + r.moved == PendingReward(v.stake, q.acc, v.rewardDebt)
    requires if q.duration > 0 then r.rewards == 0 else r.moved == 0
    requires r.penalty == BeforeUnstake(q, v, now).1
    requires 0 < amount <= v.stake && SatAdd(r.rewards, amount) <= SatAdd(q.availableCapital, r.penalty)
    ensures r.rewards + amount <= U128_MAX
    ensures q.availableCapital + r.penalty <= U128_MAX
    ensures BeforeUnstake(q, v, now).0.vestingTotal == v.vestingTotal + r.moved - r.penalty
    ensures var q1 := q.(availableCapital := q.availableCapital + r.penalty);
            var (q', v') := Unstaked(q1, BeforeUnstake(q, v, now).0, amount, amount + r.rewards);
            q'.acc == q.acc && Sound(q', PostBooks(b, r), Swap(t, v, v', q.acc))
  {
    PendingWithin(q, b, t, v);
    var v1 := if r.moved > 0 then MoveToVesting(v, q.acc, now) else v;
    if q.duration > 0 {
      PenaltyWithin(q, v1, now);
    }
    UnstakeSound(q, b, t, v, amount, r.rewards, r.moved, r.penalty, BeforeUnstake(q, v, now).0, r);
  }

  /** Both branches of a withdrawal in one form, as far as no sum saturates. */
  lemma WithdrawForm(l: Liq, p: nat, a: Address, amount: nat, now: nat)
    requires Withdraw(l, p, a, amount, now).Ok?
    ensures p in l.pools && (p, a) in l.providers && 0 < amount <= l.providers[(p, a)].stake
    ensures var (l', r) := Withdraw(l, p, a, amount, now).value;
            var q, v := l.pools[p], l.providers[(p, a)];
            && r.Withdrawn? && r.pool == p && r.who == a && r.principal == amount
            && r.rewards + r.moved == PendingReward(v.stake, q.acc, v.rewardDebt)
            && (if q.duration > 0 then r.rewards == 0 else r.moved == 0)
            && r.penalty == BeforeUnstake(q, v, now).1
            && SatAdd(r.rewards, amount) <= SatAdd(q.availableCapital, r.penalty)
            && (r.rewards + amount <= U128_MAX && q.availableCapital + r.penalty <= U128_MAX ==>
                  var (q', v') := Unstaked(q.(availableCapital := q.availableCapital + r.penalty),
                                           BeforeUnstake(q, v, now).0, amount, amount + r.rewards);
                  l' == Settle(l, p, a, q', v'))
  {
    hide PendingReward, Penalty, Earned, Settle, MoveToVesting;
  }

  lemma WithdrawKeeps(l: Liq, g: Ledger, p: nat, a: Address, amount: nat, now: nat)
    requires Inv(l, g)
    ensures Keeps(g, Withdraw(l, p, a, amount, now))
  {
    hide PoolsSound, VestingsSound, FitsAll, Sound, SumsOf, Swap, Includes, PostBooks, PendingReward, Penalty, Withdraw;
    var reply := Withdraw(l, p, a, amount, now);
    if reply.Ok? && FitsAll(Post(g, reply.value.1)) {
      WithdrawForm(l, p, a, amount, now);
      var r, q, k := reply.value.1, l.pools[p], (p, a);
      var v, b := l.providers[k], BooksAt(g, p);
      Known(l, g, p, a, r);
      var v2 := BeforeUnstake(q, v, now).0;
      WithdrawSound(q, b, SumsOf(l.providers, p, q.acc), v, amount, now, r);
      var (q', v') := Unstaked(q.(availableCapital := q.availableCapital + r.penalty), v2, amount, amount + r.rewards);
      if v'.stake == 0 {
        DropKeepsInv(l, g, p, a, q', v', r);
      } else {
        StoreKeepsInv(l, g, p, a, q', v', r);
      }
    }
  }

  lemma ClaimRewardsKeeps(l: Liq, g: Ledger, p: nat, a: Address, now: nat)
    requires Inv(l, g)
    ensures Keeps(g, ClaimRewards(l, p, a, now))
  {
    hide PoolsSound, VestingsSound, FitsAll, Sound, Swap, Includes, PostBooks, PendingReward;
    var reply := ClaimRewards(l, p, a, now);
    if reply.Ok? && FitsAll(Post(g, reply.value.1)) && !reply.value.1.Done? {
      var r, q, k := reply.value.1, l.pools[p], (p, a);
      var v := l.providers[k];
      var t, b := SumsOf(l.providers, p, q.acc), BooksAt(g, p);
      Known(l, g, p, a, r);
      PendingWithin(q, b, t, v);
      if q.duration > 0 {
        MoveSound(q, b, t, v, now, r);
        StoreKeepsInv(l, g, p, a, q, MoveToVesting(v, q.acc, now), r);
      } else {
        ClaimSound(q, b, t, v, r);
        StoreKeepsInv(l, g, p, a, q.(availableCapital := SatSub(q.availableCapital, r.amount)),
                      v.(rewardDebt := Earned(v.stake, q.acc)), r);
      }
    }
  }

  lemma ReinvestKeeps(l: Liq, g: Ledger, p: nat, a: Address)
    requires Inv(l, g)
    ensures Keeps(g, Reinvest(l, p, a))
  {
    hide PoolsSound, VestingsSound, FitsAll, Sound, Swap, PostBooks, Includes;
    var reply := Reinvest(l, p, a);
    if reply.Ok? && FitsAll(Post(g, reply.value.1)) && !reply.value.1.Done? {
      var r, q, k := reply.value.1, l.pools[p], (p, a);
      var v := l.providers[k];
      Known(l, g, p, a, r);
      ReinvestSound(q, BooksAt(g, p), SumsOf(l.providers, p, q.acc), v, r);
      StoreKeepsInv(l, g, p, a, reply.value.0.pools[p], reply.value.0.providers[k], r);
    }
  }

  lemma ClaimVestedKeeps(l: Liq, g: Ledger, p: nat, a: Address, now: nat)
    requires Inv(l, g)
    ensures Keeps(g, ClaimVested(l, p, a, now))
  {
    hide PoolsSound, VestingsSound, FitsAll, Swap, PostBooks, Potential, Vested;
    var reply := ClaimVested(l, p, a, now);
    if reply.Ok? && FitsAll(Post(g, reply.value.1)) && !reply.value.1.Done? {
      var r, q, k := reply.value.1, l.pools[p], (p, a);
      var v, v' := l.providers[k], reply.value.0.providers[k];
      Known(l, g, p, a, r);
      if q.duration > 0 {
        var elapsed := SatSub(now, v.vestingStart);
        VestedWithin(v.vestingTotal, elapsed, q.cliff, q.duration);
        ClaimVestedLocal(v, Vested(v.vestingTotal, elapsed, q.cliff, q.duration));
      }
      VestedSound(q, BooksAt(g, p), SumsOf(l.providers, p, q.acc), v, r, v');
      StoreKeepsInv(l, g, p, a, reply.value.0.pools[p], v', r);
    }
  }

  lemma PremiumKeeps(l: Liq, g: Ledger, p: nat, q: Pool, share: nat, r: Receipt)
    requires Inv(l, g) && p in l.pools && q == l.pools[p].(activePolicies := q.activePolicies)
    requires r.PremiumTaken? && r.pool == p && r.share == share && r.accrued == Accrued(q, share)
    requires FitsAll(Post(g, r))
    ensures Inv(l.(pools := l.pools[p := TakePremium(q, share)]), Post(g, r))
  {
    hide VestingsSound, FitsAll, PostBooks, TakePremium;
    Known(l, g, p, 0, r);
    PremiumSound(q, BooksAt(g, p), l.providers, p, share, r);
    PoolKeepsInv(l, g, p, TakePremium(q, share), r);
  }

  lemma PayClaimKeeps(l: Liq, g: Ledger, p: nat, amount: nat, r: Receipt)
    requires Inv(l, g) && p in l.pools && amount <= l.pools[p].availableCapital
    requires r == ClaimPaid(p, amount) && FitsAll(Post(g, r))
    ensures Inv(l.(pools := l.pools[p := PayClaim(l.pools[p], amount)]), Post(g, r))
  {
    hide VestingsSound, FitsAll, SumsOf;
    Known(l, g, p, 0, r);
    PoolKeepsInv(l, g, p, PayClaim(l.pools[p], amount), r);
  }

  lemma EndPolicyKeeps(l: Liq, g: Ledger, p: nat)
    requires Inv(l, g) && p in l.pools
    ensures Inv(l.(pools := l.pools[p := EndPolicy(l.pools[p])]), g)
  {
    hide VestingsSound, SumsOf;
    assert PoolSound(l, g, p);
    PoolKeepsInv(l, g, p, EndPolicy(l.pools[p]), Done(0));
  }

  // ---------------------------------------------------------------------------------------
  // What the invariant means
  // ---------------------------------------------------------------------------------------

  ghost function PendingTotal(l: Liq, p: nat): int
    requires p in l.pools
  {
    SumBy(l.providers, PendingOf(p, l.pools[p].acc))
  }

  ghost function OutstandingTotal(l: Liq, p: nat): int {
    SumBy(l.providers, OutstandingOf(p))
  }

  lemma PendingWithinPotential(ps: Providers, p: nat, acc: nat)
    ensures 0 <= SumBy(ps, PendingOf(p, acc))
    ensures PRECISION * SumBy(ps, PendingOf(p, acc)) <= SumBy(ps, PotentialOf(p, acc))
  {
    var none := (k: Key, v: Provider) => 0;
    forall k: Key | k in ps
      ensures none(k, ps[k]) <= PotentialOf(p, acc)(k, ps[k]) + (0 - PRECISION) * PendingOf(p, acc)(k, ps[k])
    {
      SyncedPotential(ps[k], ps[k].stake, acc);
    }
    SumBound(ps, none, PotentialOf(p, acc), 0 - PRECISION, PendingOf(p, acc));
    ZeroSum(ps, none);
    NonNegative(ps, p, acc);
    SumTerm(ps, PendingOf(p, acc));
  }

  /** Rewards paid, reinvested, moved into vesting and still pending never exceed what accrued
      by more than the rounding of the stake changes, which is less than one unit each. */
  lemma RewardsBacked(l: Liq, g: Ledger, p: nat)
    requires Inv(l, g) && p in l.pools
    ensures var b := BooksAt(g, p);
            var handedOut := b.rewardsOut + b.reinvested + b.moved + PendingTotal(l, p);
            && PRECISION * handedOut <= PRECISION * b.accrued + (PRECISION - 1) * b.stakeOps
            && handedOut <= b.accrued + b.stakeOps
            && (b.stakeOps > 0 ==> handedOut < b.accrued + b.stakeOps)
  {
    assert PoolSound(l, g, p);
    PendingWithinPotential(l.providers, p, l.pools[p].acc);
  }

  /** The capital left, without the penalties that were credited although the money never left,
      still covers every stake, every pending reward and every outstanding vesting entry, up
      to the claims paid, the rounding of stake changes and repeated vested payments. */
  lemma PoolSolvent(l: Liq, g: Ledger, p: nat)
    requires Inv(l, g) && p in l.pools
    ensures var q, b := l.pools[p], BooksAt(g, p);
            q.totalStake + PendingTotal(l, p) + OutstandingTotal(l, p) + b.penalties
            <= q.availableCapital + q.claimsPaid + b.stakeOps + b.repaid
  {
    RewardsBacked(l, g, p);
    assert PoolSound(l, g, p);
  }
}
