/** Sharper facts about single rewards: pro-rata fairness, the exact rounding dust of a stake
    change, when the stored debt can exceed what was earned, and the vesting schedule. */
module Rewards {
  import opened Common
  import opened Liquidity
  import opened Solvency

  // ---------------------------------------------------------------------------------------
  // Pro-rata fairness
  // ---------------------------------------------------------------------------------------

  /** A premium share `r` over a total stake `T` raises the pending rewards of a stake `s` by
      less than `s * r / T + 1` and by more than `s * r / T - s / PRECISION - 1`, both stated
      with the divisors multiplied out. */
  lemma ProRata(s: nat, debt: nat, acc: nat, r: nat, T: nat)
    requires T > 0 && debt <= Earned(s, acc)
    requires r * PRECISION <= U128_MAX
    requires s * (acc + AccrualStep(r, T)) <= U128_MAX && acc + AccrualStep(r, T) <= U128_MAX
    ensures var raise := PendingReward(s, Accrue(StakedPool(T, acc), r).acc, debt) - PendingReward(s, acc, debt);
            && T * raise < s * r + T
            && T * PRECISION * raise > s * r * PRECISION - s * T - T * PRECISION
  {
    hide Earned, PendingReward;
    var inc := AccrualStep(r, T);
    AccrueUnsaturated(acc, r, T);
    RaiseWithin(s, debt, acc, inc);
    Scaled(s, inc, r, T, PendingReward(s, acc + inc, debt) - PendingReward(s, acc, debt));
  }

  lemma AccrueUnsaturated(acc: nat, r: nat, T: nat)
    requires T > 0 && acc + AccrualStep(r, T) <= U128_MAX
    ensures Accrue(StakedPool(T, acc), r).acc == acc + AccrualStep(r, T)
  {
    if r == 0 {
      assert SatMul(0, PRECISION) == 0;
    }
  }

  lemma RaiseWithin(s: nat, debt: nat, acc: nat, inc: nat)
    requires debt <= Earned(s, acc) && s * (acc + inc) <= U128_MAX
    ensures s * inc - PRECISION < PRECISION * (PendingReward(s, acc + inc, debt) - PendingReward(s, acc, debt)) < s * inc + PRECISION
  {
    assert s * (acc + inc) == s * acc + s * inc;
    assert 0 <= s * inc && 0 <= s * acc;
    EarnedParts(s, acc);
    EarnedParts(s, acc + inc);
  }

  /** A pool holding total stake `T` at index `acc`; nothing else matters to an accrual. */
  function StakedPool(T: nat, acc: nat): Pool {
    Pool(T, 0, 0, 0, 0, 0, 0, true, T, acc, 0, 0, 0)
  }

  lemma Scaled(s: nat, inc: nat, r: nat, T: nat, raise: int)
    requires T > 0 && r * PRECISION <= U128_MAX && inc == AccrualStep(r, T)
    requires s * inc - PRECISION < PRECISION * raise < s * inc + PRECISION
    ensures T * raise < s * r + T
    ensures T * PRECISION * raise > s * r * PRECISION - s * T - T * PRECISION
  {
    var x := r * PRECISION;
    assert inc * T <= x < inc * T + T;
    ProductOrdered(inc * T, x, s);
    ProductOrdered(x, inc * T + T, s);
    Reassociate(s, inc, T);
    Reassociate(s, r, PRECISION);
    assert (inc * T + T) * s == (inc * T) * s + T * s;
    ScaledAbove(s * inc, raise, T, s * r);
    ScaledBelow(s * inc, raise, T, s * r, s * T);
  }

  lemma Reassociate(s: nat, x: nat, y: nat)
    ensures (x * y) * s == y * (s * x)
  {
  }

  lemma ScaledAbove(m: nat, raise: int, T: nat, w: nat)
    requires T > 0 && PRECISION * raise < m + PRECISION && T * m <= PRECISION * w
    ensures T * raise < w + T
  {
    StrictlyScaled(PRECISION * raise, m + PRECISION, T);
    assert T * (m + PRECISION) == T * m + PRECISION * T;
    assert T * (PRECISION * raise) == PRECISION * (T * raise);
  }

  lemma ScaledBelow(m: nat, raise: int, T: nat, w: nat, slack: nat)
    requires T > 0 && m - PRECISION < PRECISION * raise && PRECISION * w <= T * m + slack
    ensures T * PRECISION * raise > w * PRECISION - slack - T * PRECISION
  {
    StrictlyScaled(m - PRECISION, PRECISION * raise, T);
    assert T * (m - PRECISION) == T * m - PRECISION * T;
    assert T * (PRECISION * raise) == T * PRECISION * raise;
  }

  lemma StrictlyScaled(a: int, b: int, d: nat)
    requires a < b && d > 0
    ensures d * a < d * b
  {
  }

  // ---------------------------------------------------------------------------------------
  // Rounding dust
  // ---------------------------------------------------------------------------------------

  ghost predicate Unclipped(v: Provider, acc: nat) {
    v.rewardDebt <= Earned(v.stake, acc)
  }

  /** A deposit creates exactly the scaled remainder of its debt increment: it is free of dust
      if and only if `amount * acc` is a multiple of the precision. */
  lemma DepositDust(q: Pool, v: Provider, amount: nat)
    requires (v.stake + amount) * q.acc <= U128_MAX && Unclipped(v, q.acc)
    ensures var v' := Staked(q, v, amount).1;
            && Potential(v', q.acc) == Potential(v, q.acc) + amount * q.acc % PRECISION
            && (Potential(v', q.acc) == Potential(v, q.acc) <==> amount * q.acc % PRECISION == 0)
            && Unclipped(v', q.acc)
  {
    hide SatMul;
    assert (v.stake + amount) * q.acc == v.stake * q.acc + amount * q.acc;
    assert SatMul(v.stake, q.acc) == v.stake * q.acc && SatMul(amount, q.acc) == amount * q.acc
           && SatMul(v.stake + amount, q.acc) == v.stake * q.acc + amount * q.acc by {
      Exact(v.stake, amount, q.acc);
    }
    Remainder(v.stake * q.acc, amount * q.acc, v.rewardDebt);
  }

  lemma Exact(x: nat, y: nat, acc: nat)
    requires (x + y) * acc <= U128_MAX
    ensures SatMul(x, acc) == x * acc && SatMul(y, acc) == y * acc && SatMul(x + y, acc) == x * acc + y * acc
  {
    assert (x + y) * acc == x * acc + y * acc;
    assert x * acc >= 0 && y * acc >= 0;
  }

  /** Adding the floor of `more / PRECISION` to a debt leaves the remainder of `more` behind. */
  lemma Remainder(earned: nat, more: nat, debt: nat)
    requires debt <= earned / PRECISION && earned + more <= U128_MAX
    ensures SatAdd(debt, more / PRECISION) == debt + more / PRECISION <= (earned + more) / PRECISION
    ensures Pos(earned + more - PRECISION * (debt + more / PRECISION)) == Pos(earned - PRECISION * debt) + more % PRECISION
  {
  }

  /** Changing the stake while paying the pending rewards replaces the remainder of the old
      stake by the remainder of the new one. */
  lemma ResyncDust(v: Provider, stake: nat, acc: nat)
    requires v.stake * acc <= U128_MAX && stake * acc <= U128_MAX && Unclipped(v, acc)
    ensures PRECISION * PendingReward(v.stake, acc, v.rewardDebt)
          + Potential(v.(stake := stake, rewardDebt := Earned(stake, acc)), acc)
         == Potential(v, acc) - v.stake * acc % PRECISION + stake * acc % PRECISION
  {
    EarnedParts(v.stake, acc);
  }

  /** Without the allowance for dust the bound fails: one unit of premium, two units pending. */
  lemma DustIsReal()
    ensures var q := StakedPool(2, 0);
            var q1 := Accrue(q, 1);
            var alice := Provider(2, 0, 0, 0, 0, 0);
            var (q2, bob) := Staked(q1, NO_PROVIDER, 1);
            var (q3, bob') := Staked(q2, bob, 1);
            && Accrued(q, 1) == 1
            && PendingReward(alice.stake, q3.acc, alice.rewardDebt) == 1
            && PendingReward(bob'.stake, q3.acc, bob'.rewardDebt) == 1
  {
    assert AccrualStep(1, 2) == PRECISION / 2;
  }

  // ---------------------------------------------------------------------------------------
  // The saturating subtraction of the debt never clips
  // ---------------------------------------------------------------------------------------

  ghost predicate NoneClipped(l: Liq) {
    forall k: Key | k in l.providers && k.0 in l.pools :: Unclipped(l.providers[k], l.pools[k.0].acc)
  }

  lemma EarnedGrows(stake: nat, acc: nat, acc': nat)
    requires acc <= acc'
    ensures Earned(stake, acc) <= Earned(stake, acc')
  {
    ProductOrdered(acc, acc', stake);
  }

  lemma StoreUnclipped(l: Liq, p: nat, a: Address, q: Pool, v: Provider)
    requires NoneClipped(l) && p in l.pools && l.pools[p].acc <= q.acc && Unclipped(v, q.acc)
    ensures NoneClipped(Store(l, p, a, q, v)) && NoneClipped(Drop(l, p, a, q))
  {
    forall k: Key | k in l.providers && k.0 in l.pools ensures k.0 == p ==> Unclipped(l.providers[k], q.acc) {
      if k.0 == p {
        assert Unclipped(l.providers[k], l.pools[k.0].acc);
        EarnedGrows(l.providers[k].stake, l.pools[p].acc, q.acc);
      }
    }
  }

  lemma PoolUnclipped(l: Liq, p: nat, q: Pool)
    requires NoneClipped(l) && p in l.pools && l.pools[p].acc <= q.acc
    ensures NoneClipped(l.(pools := l.pools[p := q]))
  {
    var l' := l.(pools := l.pools[p := q]);
    forall k: Key | k in l'.providers && k.0 in l'.pools ensures Unclipped(l'.providers[k], l'.pools[k.0].acc) {
      assert Unclipped(l.providers[k], l.pools[k.0].acc);
      if k.0 == p {
        EarnedGrows(l.providers[k].stake, l.pools[p].acc, q.acc);
      }
    }
  }

  /** What a depositor can check before calling: the product of the new stake and the index
      fits, or the debt that will be stored is still within the saturated earnings. */
  predicate Covers(q: Pool, v: Provider, amount: nat) {
    || (v.stake + amount) * q.acc <= U128_MAX
    || v.rewardDebt + Earned(amount, q.acc) <= U128_MAX / PRECISION
  }

  /** A deposit stores more debt than the stake has earned exactly when it fails that check. */
  lemma DepositClips(q: Pool, v: Provider, amount: nat)
    requires Unclipped(v, q.acc)
    ensures Unclipped(Staked(q, v, amount).1, q.acc) <==> Covers(q, v, amount)
  {
    if (v.stake + amount) * q.acc <= U128_MAX {
      DepositDust(q, v, amount);
    } else {
      assert SatMul(v.stake + amount, q.acc) == U128_MAX;
    }
  }

  /** The check holds at a deposit that is accepted. */
  ghost predicate DepositFits(l: Liq, p: nat, a: Address, amount: nat, now: nat) {
    Deposit(l, p, a, amount, now).Ok? ==> Covers(l.pools[p], ProviderAt(l.providers, (p, a)), amount)
  }

  /** Among providers none of whom is ahead of its earnings, a deposit puts one ahead exactly
      when it fails the check. */
  lemma DepositUnclipped(l: Liq, p: nat, a: Address, amount: nat, now: nat)
    requires NoneClipped(l) && Deposit(l, p, a, amount, now).Ok?
    ensures NoneClipped(Deposit(l, p, a, amount, now).value.0) <==> DepositFits(l, p, a, amount, now)
  {
    hide Covers, Staked, Unclipped;
    var q, v := l.pools[p], if (p, a) in l.providers then l.providers[(p, a)] else NO_PROVIDER.(depositedAt := now);
    NewcomerUnclipped(q.acc, now);
    assert Unclipped(v, q.acc);
    DepositClips(q, v, amount);
    CoversSame(q, v, ProviderAt(l.providers, (p, a)), amount);
    StakedKeepsIndex(q, v, amount);
    var reply := Deposit(l, p, a, amount, now);
    if Unclipped(reply.value.0.providers[(p, a)], q.acc) {
      StoreUnclipped(l, p, a, reply.value.0.pools[p], reply.value.0.providers[(p, a)]);
    }
  }

  lemma NewcomerUnclipped(acc: nat, now: nat)
    ensures Unclipped(NO_PROVIDER.(depositedAt := now), acc)
  {
  }

  lemma CoversSame(q: Pool, v: Provider, v': Provider, amount: nat)
    requires v.stake == v'.stake && v.rewardDebt == v'.rewardDebt
    ensures Covers(q, v, amount) <==> Covers(q, v', amount)
  {
  }

  lemma StakedKeepsIndex(q: Pool, v: Provider, amount: nat)
    ensures Staked(q, v, amount).0.acc == q.acc
  {
  }

  /** The check can fail: at a saturated index two deposits of one unit store more debt than
      two units ever earned. */
  lemma SaturatedDepositClips(q: Pool)
    requires q.acc == U128_MAX
    ensures var v := Staked(q, NO_PROVIDER, 1).1;
            && Unclipped(v, q.acc) && !Covers(q, v, 1)
            && !Unclipped(Staked(q, v, 1).1, q.acc)
  {
  }

  // ---------------------------------------------------------------------------------------
  // A deposit undone
  // ---------------------------------------------------------------------------------------

  /** A new provider who withdraws its whole deposit at once gets it all back with no reward and
      no penalty, and leaves every pool and every other provider as they were. */
  lemma WithdrawUndoesDeposit(l: Liq, p: nat, a: Address, amount: nat, now: nat, later: nat)
    requires p in l.pools && (p, a) !in l.providers && a !in ListAt(l.poolProviders, p)
    requires var q := l.pools[p];
             q.totalStake + amount <= U128_MAX && q.totalCapital + amount <= U128_MAX && q.availableCapital + amount <= U128_MAX
    requires Deposit(l, p, a, amount, now).Ok?
    ensures var deposited := Deposit(l, p, a, amount, now).value.0;
            var back := Withdraw(deposited, p, a, amount, later);
            && back.Ok? && back.value.1 == Withdrawn(p, a, amount, 0, 0, 0)
            && back.value.0.pools == l.pools && back.value.0.providers == l.providers
            && (forall i: nat :: ListAt(back.value.0.poolProviders, i) == ListAt(l.poolProviders, i))
  {
    hide SatMul, Without;
    var deposited := Deposit(l, p, a, amount, now).value.0;
    WithoutAdded(ListAt(l.poolProviders, p), a);
    WithoutAbsent(ListAt(l.poolProviders, p), a);
    EarnedFits(amount, l.pools[p].acc);
    var q := deposited.pools[p];
    assert q.(totalStake := SatSub(q.totalStake, amount), totalCapital := SatSub(q.totalCapital, amount),
              availableCapital := SatSub(q.availableCapital, amount)) == l.pools[p];
    assert deposited.providers - {(p, a)} == l.providers;
  }

  /** A withdrawal of the whole stake, and only that, removes the provider; whatever it still
      had vesting can never be claimed again. */
  lemma FullExitForfeitsVesting(l: Liq, p: nat, a: Address, amount: nat, now: nat, later: nat)
    requires Withdraw(l, p, a, amount, now).Ok?
    ensures var l' := Withdraw(l, p, a, amount, now).value.0;
            && ((p, a) !in l'.providers <==> amount == l.providers[(p, a)].stake)
            && ((p, a) !in l'.providers ==> ClaimVested(l', p, a, later) == Err(InsufficientStake))
  {
    hide Earned, PendingReward, Penalty, Without;
  }

  lemma EarnedFits(stake: nat, acc: nat)
    ensures Earned(stake, acc) <= U128_MAX
  {
  }

  lemma WithoutAdded<T(!new)>(s: seq<T>, x: T)
    ensures Without(s + [x], x) == Without(s, x)
  {
    assert (s + [x])[..|s|] == s;
  }

  lemma {:induction false} WithoutAbsent<T(!new)>(s: seq<T>, x: T)
    requires x !in s
    ensures Without(s, x) == s
  {
    if s != [] {
      WithoutAbsent(s[..|s| - 1], x);
    }
  }

  // ---------------------------------------------------------------------------------------
  // What a quote is worth
  // ---------------------------------------------------------------------------------------

  /** `pending` is what `a` gets from pool `p` by claiming, at any time: if the claim is accepted
      it pays or moves exactly that, and reports nothing exactly when that is zero. */
  ghost predicate Quotes(l: Liq, p: nat, a: Address, pending: nat) {
    forall now: nat | ClaimRewards(l, p, a, now).Ok? ::
      && Gained(ClaimRewards(l, p, a, now).value.1) == pending
      && (ClaimRewards(l, p, a, now).value.1 == Done(0) <==> pending == 0)
  }

  /** The reward that a claim's report is about. */
  function Gained(r: Receipt): nat {
    match r
    case RewardsPaid(_, amount) => amount
    case VestingStarted(_, _, amount) => amount
    case _ => 0
  }

  /** A provider's stored figures quote its claim, and after an accepted claim nothing is left. */
  lemma QuoteIsWhatClaimPays(l: Liq, p: nat, a: Address)
    requires p in l.pools && (p, a) in l.providers
    ensures var v := l.providers[(p, a)]; Quotes(l, p, a, PendingReward(v.stake, l.pools[p].acc, v.rewardDebt))
    ensures forall now: nat | ClaimRewards(l, p, a, now).Ok? ::
              Quotes(ClaimRewards(l, p, a, now).value.0, p, a, 0)
  {
    hide Quotes, Earned;
    var v := l.providers[(p, a)];
    QuoteOf(l, p, a);
    forall now: nat | ClaimRewards(l, p, a, now).Ok? ensures Quotes(ClaimRewards(l, p, a, now).value.0, p, a, 0) {
      QuoteOf(ClaimRewards(l, p, a, now).value.0, p, a);
    }
  }

  lemma NothingToQuote(l: Liq, p: nat, a: Address)
    requires p !in l.pools || (p, a) !in l.providers
    ensures Quotes(l, p, a, 0)
  {
    hide PendingReward, Earned;
  }

  lemma QuoteOf(l: Liq, p: nat, a: Address)
    requires p in l.pools && (p, a) in l.providers
    ensures var v := l.providers[(p, a)]; Quotes(l, p, a, PendingReward(v.stake, l.pools[p].acc, v.rewardDebt))
  {
    hide PendingReward, Earned;
  }

  // ---------------------------------------------------------------------------------------
  // The vesting schedule
  // ---------------------------------------------------------------------------------------

  /** Runs one provider's vested claims at the given times; a failed claim changes nothing.
      Returns the pools and the total paid. */
  function ClaimAll(l: Liq, p: nat, a: Address, times: seq<nat>): (Liq, nat) {
    if times == [] then (l, 0)
    else
      var (l1, paid) := ClaimAll(l, p, a, times[..|times| - 1]);
      match ClaimVested(l1, p, a, times[|times| - 1])
      case Ok((l2, VestedPaid(_, _, amount, _))) => (l2, paid + amount)
      case _ => (l1, paid)
  }

  ghost predicate Ordered(times: seq<nat>) {
    forall i, j | 0 <= i < j < |times| :: times[i] <= times[j]
  }

  /** A running schedule, whatever was claimed from it before; `vestingTotal * duration` fits. */
  ghost predicate OnSchedule(l: Liq, p: nat, a: Address) {
    && p in l.pools && (p, a) in l.providers
    && l.pools[p].cliff <= l.pools[p].duration
    && 0 < l.pools[p].duration
    && var v := l.providers[(p, a)];
       v.vestingTotal > 0 && v.vestingStart > 0 && v.vestingTotal * l.pools[p].duration <= U128_MAX
  }

  /** After the claims: either everything vested was paid and the record is clear, or the
      record is unchanged but for the amount claimed. */
  ghost predicate Progress(l: Liq, l': Liq, p: nat, a: Address, paid: nat, last: nat)
    requires OnSchedule(l, p, a)
  {
    && p in l'.pools && (p, a) in l'.providers
    && var q, q', v, v' := l.pools[p], l'.pools[p], l.providers[(p, a)], l'.providers[(p, a)];
       && q'.duration == q.duration && q'.cliff == q.cliff
       && paid <= SatSub(Vested(v.vestingTotal, SatSub(last, v.vestingStart), q.cliff, q.duration), v.vestingClaimed)
       && (if paid > 0 && v.vestingClaimed + paid == v.vestingTotal then v'.vestingTotal == 0
           else v'.vestingTotal == v.vestingTotal && v'.vestingStart == v.vestingStart
                && v'.vestingClaimed == v.vestingClaimed + paid)
  }

  lemma VestedGrows(total: nat, e: nat, e': nat, cliff: nat, duration: nat)
    requires 0 < duration && e <= e' && total * duration <= U128_MAX
    ensures Vested(total, e, cliff, duration) <= Vested(total, e', cliff, duration)
  {
    var s, s' := if e >= duration then duration else e, if e' >= duration then duration else e';
    ProductOrdered(s, s', total);
    ProductOrdered(s', duration, total);
    DivOrdered(total * s, total * s', duration);
  }

  lemma DivOrdered(x: nat, y: nat, d: nat)
    requires x <= y && d > 0
    ensures x / d <= y / d
  {
    assert y < (y / d + 1) * d;
    if x / d > y / d {
      ProductOrdered(y / d + 1, x / d, d);
      assert false;
    }
  }

  /** One more claim, at a later time, after `paid` was paid. */
  lemma ClaimStep(l: Liq, l1: Liq, p: nat, a: Address, paid: nat, last: nat, now: nat)
    requires OnSchedule(l, p, a) && last <= now && Progress(l, l1, p, a, paid, last)
    ensures var v, q := l.providers[(p, a)], l.pools[p];
            var due := SatSub(Vested(v.vestingTotal, SatSub(now, v.vestingStart), q.cliff, q.duration), v.vestingClaimed);
            match ClaimVested(l1, p, a, now)
            case Ok((l2, VestedPaid(_, _, amount, _))) => paid + amount == due && Progress(l, l2, p, a, due, now)
            case Ok(_) => paid == due && Progress(l, l1, p, a, paid, now)
            case Err(_) => Progress(l, l1, p, a, paid, now)
  {
    hide Vested;
    var v, q := l.providers[(p, a)], l.pools[p];
    VestedGrows(v.vestingTotal, SatSub(last, v.vestingStart), SatSub(now, v.vestingStart), q.cliff, q.duration);
    ProductOrdered(1, q.duration, v.vestingTotal);
    VestedWithin(v.vestingTotal, SatSub(now, v.vestingStart), q.cliff, q.duration);
  }

  lemma {:induction false} ClaimsProgress(l: Liq, p: nat, a: Address, times: seq<nat>)
    requires OnSchedule(l, p, a) && Ordered(times)
    ensures Progress(l, ClaimAll(l, p, a, times).0, p, a, ClaimAll(l, p, a, times).1,
                     if times == [] then 0 else times[|times| - 1])
    ensures times != [] && ClaimVested(ClaimAll(l, p, a, times[..|times| - 1]).0, p, a, times[|times| - 1]).Ok? ==>
              var v, q := l.providers[(p, a)], l.pools[p];
              ClaimAll(l, p, a, times).1
              == SatSub(Vested(v.vestingTotal, SatSub(times[|times| - 1], v.vestingStart), q.cliff, q.duration),
                        v.vestingClaimed)
  {
    hide Vested, ClaimVested, Progress;
    if times == [] {
      NoProgress(l, p, a);
    } else {
      var before, now := times[..|times| - 1], times[|times| - 1];
      ClaimsProgress(l, p, a, before);
      ClaimStep(l, ClaimAll(l, p, a, before).0, p, a, ClaimAll(l, p, a, before).1,
                if before == [] then 0 else before[|before| - 1], now);
    }
  }

  lemma NoProgress(l: Liq, p: nat, a: Address)
    requires OnSchedule(l, p, a)
    ensures Progress(l, l, p, a, 0, 0)
  {
  }

  /** However the claims are spread over time, as soon as the last of them succeeds past the
      cliff the provider has been paid exactly the linear share of its schedule, less what it
      had claimed from it before. */
  lemma VestingTelescopes(l: Liq, p: nat, a: Address, times: seq<nat>)
    requires OnSchedule(l, p, a) && Ordered(times) && times != []
    requires var v := l.providers[(p, a)];
             times[|times| - 1] >= v.vestingStart + l.pools[p].cliff
    requires ClaimVested(ClaimAll(l, p, a, times[..|times| - 1]).0, p, a, times[|times| - 1]).Ok?
    ensures var v, q := l.providers[(p, a)], l.pools[p];
            var elapsed := times[|times| - 1] - v.vestingStart;
            ClaimAll(l, p, a, times).1
            == SatSub(LinearShare(v.vestingTotal, elapsed, q.duration), v.vestingClaimed)
  {
    hide ClaimAll, ClaimVested, LinearShare, Vested;
    var v, q := l.providers[(p, a)], l.pools[p];
    var elapsed := times[|times| - 1] - v.vestingStart;
    ClaimsProgress(l, p, a, times);
    VestedIsLinear(v.vestingTotal, elapsed, q.cliff, q.duration);
  }

  /** The part of `total` that is due after `elapsed` of `duration` seconds. */
  function LinearShare(total: nat, elapsed: nat, duration: nat): nat
    requires duration > 0
  {
    total * (if elapsed < duration then elapsed else duration) / duration
  }

  lemma VestedIsLinear(total: nat, elapsed: nat, cliff: nat, duration: nat)
    requires 0 < duration && cliff <= elapsed && total * duration <= U128_MAX
    ensures Vested(total, elapsed, cliff, duration) == LinearShare(total, elapsed, duration)
  {
    ProductOrdered(if elapsed < duration then elapsed else duration, duration, total);
  }

  /** What is due from a schedule by `now`: nothing before the cliff is over, the linear share
      from then on. */
  function Due(v: Provider, now: nat, cliff: nat, duration: nat): nat
    requires duration > 0
  {
    if now < v.vestingStart + cliff then 0 else LinearShare(v.vestingTotal, SatSub(now, v.vestingStart), duration)
  }

  lemma VestedIsDue(q: Pool, v: Provider, now: nat)
    requires 0 < q.duration && v.vestingStart <= now && v.vestingTotal * q.duration <= U128_MAX
    ensures Vested(v.vestingTotal, SatSub(now, v.vestingStart), q.cliff, q.duration) == Due(v, now, q.cliff, q.duration)
  {
    hide LinearShare;
    if v.vestingStart + q.cliff <= now {
      VestedIsLinear(v.vestingTotal, now - v.vestingStart, q.cliff, q.duration);
    }
  }

  /** Before the cliff is over a claim pays nothing and changes nothing. */
  lemma NothingBeforeTheCliff(l: Liq, p: nat, a: Address, now: nat)
    requires p in l.pools && (p, a) in l.providers && l.pools[p].duration > 0
    requires now < l.providers[(p, a)].vestingStart + l.pools[p].cliff
    ensures ClaimVested(l, p, a, now) == Ok((l, Done(0)))
  {
  }

  /** Nor do any number of claims before it. */
  lemma {:induction false} NoClaimsBeforeTheCliff(l: Liq, p: nat, a: Address, times: seq<nat>)
    requires p in l.pools && (p, a) in l.providers && l.pools[p].duration > 0
    requires forall i | 0 <= i < |times| :: times[i] < l.providers[(p, a)].vestingStart + l.pools[p].cliff
    ensures ClaimAll(l, p, a, times) == (l, 0)
  {
    hide ClaimVested;
    if times != [] {
      NoClaimsBeforeTheCliff(l, p, a, times[..|times| - 1]);
      NothingBeforeTheCliff(l, p, a, times[|times| - 1]);
    }
  }

  /** One claim on a running schedule, in full: it pays what is due and was not claimed yet, out
      of the pool's capital, and is refused only when the pool does not have it. The record is
      cleared once everything was paid and otherwise only counts the payment. */
  lemma VestedClaimPaysWhatIsDue(l: Liq, p: nat, a: Address, now: nat)
    requires OnSchedule(l, p, a) && l.providers[(p, a)].vestingStart <= now
    ensures var q, v := l.pools[p], l.providers[(p, a)];
            var due := SatSub(Due(v, now, q.cliff, q.duration), v.vestingClaimed);
            var q' := q.(availableCapital := SatSub(q.availableCapital, due));
            if due == 0 then ClaimVested(l, p, a, now) == Ok((l, Done(0)))
            else if q.availableCapital < due then ClaimVested(l, p, a, now) == Err(InsufficientPoolLiquidity)
            else
              ClaimVested(l, p, a, now)
              == Ok((l.(pools := l.pools[p := q'],
                        providers := l.providers[(p, a) := if v.vestingClaimed + due == v.vestingTotal
                                                           then v.(vestingTotal := 0, vestingClaimed := 0, vestingStart := 0)
                                                           else v.(vestingClaimed := v.vestingClaimed + due)]),
                     VestedPaid(p, a, due, 0)))
  {
    hide Vested, Due;
    var q, v := l.pools[p], l.providers[(p, a)];
    ProductOrdered(1, q.duration, v.vestingTotal);
    VestedIsDue(q, v, now);
    VestedWithin(v.vestingTotal, now - v.vestingStart, q.cliff, q.duration);
  }

  /** A withdrawal with nothing pending takes its penalty from what is not due yet, leaves the
      start and the claims of the schedule alone, and lets the rest go on vesting. */
  lemma PenaltyIsOnTheUnvested(l: Liq, p: nat, a: Address, amount: nat, now: nat)
    requires Withdraw(l, p, a, amount, now).Ok? && l.pools[p].duration > 0
    requires var q, v := l.pools[p], l.providers[(p, a)];
             && PendingReward(v.stake, q.acc, v.rewardDebt) == 0
             && 0 < v.vestingStart <= now
             && v.vestingTotal * q.duration <= U128_MAX && v.vestingTotal * q.penaltyBps <= U128_MAX
    ensures var (l', r) := Withdraw(l, p, a, amount, now).value;
            var q, v := l.pools[p], l.providers[(p, a)];
            var unvested := SatSub(v.vestingTotal, Due(v, now, q.cliff, q.duration));
            && r == Withdrawn(p, a, amount, 0, 0, unvested * q.penaltyBps / BPS)
            && (now >= v.vestingStart + q.cliff && now >= v.vestingStart + q.duration ==> r.penalty == 0)
            && ((p, a) in l'.providers ==>
                  var v' := l'.providers[(p, a)];
                  && v'.vestingStart == v.vestingStart && v'.vestingClaimed == v.vestingClaimed
                  && v'.vestingTotal == SatSub(v.vestingTotal, r.penalty))
  {
    hide PendingReward, Earned, Without, Penalty, Due;
    PenaltyMeans(l.pools[p], l.providers[(p, a)], now);
  }

  lemma PenaltyMeans(q: Pool, v: Provider, now: nat)
    requires q.duration > 0 && 0 < v.vestingStart <= now
    requires v.vestingTotal * q.duration <= U128_MAX && v.vestingTotal * q.penaltyBps <= U128_MAX
    ensures Penalty(q, v, now) == SatSub(v.vestingTotal, Due(v, now, q.cliff, q.duration)) * q.penaltyBps / BPS
    ensures now >= v.vestingStart + q.cliff && now >= v.vestingStart + q.duration ==>
              SatSub(v.vestingTotal, Due(v, now, q.cliff, q.duration)) == 0 && Penalty(q, v, now) == 0
  {
    hide Vested, Due;
    VestedIsDue(q, v, now);
    var unvested := SatSub(v.vestingTotal, Due(v, now, q.cliff, q.duration));
    ProductOrdered(unvested, v.vestingTotal, q.penaltyBps);
    if now >= v.vestingStart + q.cliff && now >= v.vestingStart + q.duration {
      FullyDue(q, v, now);
    }
    if v.vestingTotal == 0 || q.penaltyBps == 0 {
      assert unvested * q.penaltyBps == 0;
    }
  }

  lemma FullyDue(q: Pool, v: Provider, now: nat)
    requires q.duration > 0 && now >= v.vestingStart + q.cliff && now >= v.vestingStart + q.duration
    ensures Due(v, now, q.cliff, q.duration) == v.vestingTotal
  {
    ExactQuotient(v.vestingTotal, q.duration);
  }

  lemma ExactQuotient(x: nat, d: nat)
    requires d > 0
    ensures x * d / d == x
  {
    DivOrdered(x * d, x * d, d);
    var r := x * d / d;
    assert r * d <= x * d < r * d + d;
    if r < x {
      ProductOrdered(r + 1, x, d);
    } else if r > x {
      ProductOrdered(x + 1, r, d);
    }
  }

  /** A withdrawal with anything pending restarts the schedule first, so it is penalised on the
      whole vesting total, vested or not, and what remains vests from now on. */
  lemma WithdrawalRestartsSchedule(l: Liq, p: nat, a: Address, amount: nat, now: nat)
    requires Withdraw(l, p, a, amount, now).Ok? && l.pools[p].duration > 0
    requires PendingReward(l.providers[(p, a)].stake, l.pools[p].acc, l.providers[(p, a)].rewardDebt) > 0
    ensures var (l', r) := Withdraw(l, p, a, amount, now).value;
            var v, q := l.providers[(p, a)], l.pools[p];
            var pending := PendingReward(v.stake, q.acc, v.rewardDebt);
            var total := SatAdd(v.vestingTotal, pending);
            && r == Withdrawn(p, a, amount, 0, pending, SatMul(total, q.penaltyBps) / BPS)
            && ((p, a) in l'.providers ==>
                  var v' := l'.providers[(p, a)];
                  && v'.vestingStart == now && v'.vestingClaimed == v.vestingClaimed
                  && v'.vestingTotal == SatSub(total, r.penalty))
  {
    hide PendingReward, Earned, Without, Penalty;
    RestartedPenalty(l.pools[p], l.providers[(p, a)], now);
  }

  lemma RestartedPenalty(q: Pool, v: Provider, now: nat)
    requires q.duration > 0
    ensures var moved := MoveToVesting(v, q.acc, now); Penalty(q, moved, now) == SatMul(moved.vestingTotal, q.penaltyBps) / BPS
  {
    hide PendingReward, Earned;
    assert SatMul(0, q.penaltyBps) == 0;
    assert SatMul(MoveToVesting(v, q.acc, now).vestingTotal, 0) == 0;
  }

  /** With vesting switched off a claim pays the whole total again: it pays more than what is
      still outstanding if and only if something had been claimed before. */
  lemma UnscheduledClaimRepays(l: Liq, p: nat, a: Address, now: nat)
    requires p in l.pools && (p, a) in l.providers && l.pools[p].duration == 0
    requires ClaimVested(l, p, a, now).Ok? && l.providers[(p, a)].vestingTotal > 0
    ensures var r := ClaimVested(l, p, a, now).value.1;
            var v := l.providers[(p, a)];
            && r.amount == v.vestingTotal
            && (r.amount > Outstanding(v) <==> v.vestingClaimed > 0)
            && r.repaid == r.amount - Outstanding(v)
  {
  }
}
