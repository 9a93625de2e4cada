/** What holds at the end of every run of the insurance contract. */
module InsuranceTheorems {
  import opened Common
  import opened Liquidity
  import opened Solvency
  import opened Rewards
  import opened Insurance
  import opened InsuranceBook
  import opened InsuranceRuns

  // ---------------------------------------------------------------------------------------
  // Rewards, capital and solvency
  // ---------------------------------------------------------------------------------------

  /** Rewards paid, reinvested, moved into vesting and pending are backed by the premium shares
      that accrued, up to less than one unit of rounding per change of a stake. */
  lemma EveryRunBacksRewards(cfg: Config, calls: seq<Call>, p: nat)
    requires cfg.feeRate <= MAX_FEE_RATE && FitsAll(Run(cfg, calls).g) && p in Run(cfg, calls).s.liq.pools
    ensures var w := Run(cfg, calls);
            var b := BooksAt(w.g, p);
            var handedOut := b.rewardsOut + b.reinvested + b.moved + PendingTotal(w.s.liq, p);
            && PRECISION * handedOut <= PRECISION * b.accrued + (PRECISION - 1) * b.stakeOps
            && handedOut <= b.accrued + b.stakeOps
  {
    RunGood(cfg, calls);
    hide Inv;
    RewardsBacked(Run(cfg, calls).s.liq, Run(cfg, calls).g, p);
  }

  /** A pool's capital and its claims payments cover what it owes its providers, again up to
      rounding; credited penalties are no cover and repeated payments are no debt. */
  lemma EveryRunIsSolvent(cfg: Config, calls: seq<Call>, p: nat)
    requires cfg.feeRate <= MAX_FEE_RATE && FitsAll(Run(cfg, calls).g) && p in Run(cfg, calls).s.liq.pools
    ensures var w := Run(cfg, calls);
            var q, b := w.s.liq.pools[p], BooksAt(w.g, p);
            q.totalStake + PendingTotal(w.s.liq, p) + OutstandingTotal(w.s.liq, p) + b.penalties
            <= q.availableCapital + q.claimsPaid + b.stakeOps + b.repaid
  {
    RunGood(cfg, calls);
    hide Inv;
    PoolSolvent(Run(cfg, calls).s.liq, Run(cfg, calls).g, p);
  }

  /** Stakes and capital equal, to the unit, what the ledger of reports adds up to. */
  lemma EveryRunAccountsForCapital(cfg: Config, calls: seq<Call>, p: nat)
    requires cfg.feeRate <= MAX_FEE_RATE && FitsAll(Run(cfg, calls).g) && p in Run(cfg, calls).s.liq.pools
    ensures var w := Run(cfg, calls);
            var q, b := w.s.liq.pools[p], BooksAt(w.g, p);
            && q.totalCapital == q.totalStake == SumBy(w.s.liq.providers, StakeOf(p))
            && q.totalStake == b.deposited + b.reinvested - b.principalOut
            && q.availableCapital == b.deposited + b.premiums + b.penalties
                                     - b.principalOut - b.rewardsOut - b.vestedOut - b.claimsOut
            && q.premiumsCollected == b.premiums && q.claimsPaid == b.claimsOut
  {
    RunGood(cfg, calls);
    assert PoolSound(Run(cfg, calls).s.liq, Run(cfg, calls).g, p);
  }

  /** A pool lists its providers exactly once each, and nobody is listed without a stake. */
  lemma EveryRunListsProviders(cfg: Config, calls: seq<Call>, p: nat, a: Address)
    requires cfg.feeRate <= MAX_FEE_RATE && FitsAll(Run(cfg, calls).g)
    ensures var l := Run(cfg, calls).s.liq;
            && NoDuplicates(ListAt(l.poolProviders, p))
            && (a in ListAt(l.poolProviders, p) <==> (p, a) in l.providers)
            && ((p, a) in l.providers ==> p in l.pools && l.providers[(p, a)].stake > 0)
  {
    RunGood(cfg, calls);
  }

  // ---------------------------------------------------------------------------------------
  // Vesting
  // ---------------------------------------------------------------------------------------

  /** Whenever this provider claims, vesting is on or nothing was claimed before. */
  ghost predicate ClaimsOnSchedule(cfg: Config, calls: seq<Call>, k: Key) {
    forall i: nat | i < |calls| && calls[i].message == MClaimVested(k.0) && calls[i].env.caller == k.1 ::
      Scheduled(Run(cfg, calls[..i]).s.liq, k)
  }

  ghost predicate Scheduled(l: Liq, k: Key) {
    k.0 in l.pools && k in l.providers ==> l.pools[k.0].duration > 0 || l.providers[k].vestingClaimed == 0
  }

  lemma NothingRepaid(s: State, g: Ledger, c: Call, k: Key)
    requires c.message == MClaimVested(k.0) && c.env.caller == k.1 ==> Scheduled(s.liq, k)
    requires VestingAt(g, k).repaid == 0
    ensures VestingAt(Exec(World(s, g), c).g, k).repaid == 0
  {
    hide FitsAll, Fits, PostBooks, Deposit, Withdraw, ClaimRewards, Reinvest, ExpireFrom, ProcessClaimInner, FileClaim, Claimable;
    var answer := Handle(s, c.env, c.message);
    if answer.Ok? {
      var r := answer.value.1;
      if r.VestedPaid? && (r.pool, r.who) == k {
        ReceiptOf(s, c.env, c.message);
        assert r.repaid == 0;
      }
    }
  }

  /** Vested payments are reported by vested claims only, for the caller's own record. */
  lemma ReceiptOf(s: State, e: Env, m: Message)
    requires Handle(s, e, m).Ok? && Handle(s, e, m).value.1.VestedPaid?
    ensures m.MClaimVested? && Handle(s, e, m).value.1.pool == m.p && Handle(s, e, m).value.1.who == e.caller
  {
    hide Staked, Unstaked, Settle, MoveToVesting, PendingReward, Penalty, Exposure, AnnualPremium, Fee, TakePremium, Issue,
         ExpireFrom, RecoverFrom, FileClaim, EvidenceFault, Transfer, Claimable;
  }

  lemma {:induction false} NeverRepaid(cfg: Config, calls: seq<Call>, k: Key)
    requires ClaimsOnSchedule(cfg, calls, k)
    ensures VestingAt(Run(cfg, calls).g, k).repaid == 0
  {
    hide Handle, Post, Scheduled;
    if calls != [] {
      var n := |calls| - 1;
      forall i: nat | i < n && calls[..n][i].message == MClaimVested(k.0) && calls[..n][i].env.caller == k.1
        ensures Scheduled(Run(cfg, calls[..n][..i]).s.liq, k)
      {
        assert calls[..n][..i] == calls[..i];
      }
      NeverRepaid(cfg, calls[..n], k);
      NothingRepaid(Run(cfg, calls[..n]).s, Run(cfg, calls[..n]).g, calls[n], k);
    }
  }

  /** A provider is never paid more from its schedule than was ever moved into it, whatever
      penalties, restarts, exits and returns happen in between. */
  lemma EveryRunVestsWithinMoved(cfg: Config, calls: seq<Call>, k: Key)
    requires cfg.feeRate <= MAX_FEE_RATE && FitsAll(Run(cfg, calls).g)
    ensures var w := Run(cfg, calls);
            VestingAt(w.g, k).paid + Outstanding(ProviderAt(w.s.liq.providers, k))
            <= VestingAt(w.g, k).moved + VestingAt(w.g, k).repaid
    ensures ClaimsOnSchedule(cfg, calls, k) ==> VestingAt(Run(cfg, calls).g, k).paid <= VestingAt(Run(cfg, calls).g, k).moved
  {
    hide Run, PoolsSound, BookSound, Listed, FitsAll, ClaimsOnSchedule;
    RunGood(cfg, calls);
    assert VestingSound(ProviderAt(Run(cfg, calls).s.liq.providers, k), VestingAt(Run(cfg, calls).g, k));
    if ClaimsOnSchedule(cfg, calls, k) {
      NeverRepaid(cfg, calls, k);
    }
  }

  // ---------------------------------------------------------------------------------------
  // Leaving a pool
  // ---------------------------------------------------------------------------------------

  function Forget(g: Ledger, k: Key): Ledger {
    g.(vesting := g.vesting[k := NO_VESTING])
  }

  /** The ledger of a run that starts a new page for `k` after `n` messages. */
  function NewPage(cfg: Config, calls: seq<Call>, n: nat, j: nat, k: Key): Ledger
    requires n <= j <= |calls|
    decreases j
  {
    if j == n then Forget(Run(cfg, calls[..n]).g, k)
    else
      var s, c := Run(cfg, calls[..j - 1]).s, calls[j - 1];
      match Handle(s, c.env, c.message)
      case Ok((_, r)) => Post(NewPage(cfg, calls, n, j - 1, k), r)
      case Err(_) => NewPage(cfg, calls, n, j - 1, k)
  }

  /** The new page misses exactly what was written before it was started. */
  ghost predicate Misses(g: Ledger, page: Ledger, k: Key, before: Vesting) {
    && page.pools == g.pools
    && VestingAt(g, k).moved == VestingAt(page, k).moved + before.moved
    && VestingAt(g, k).paid == VestingAt(page, k).paid + before.paid
    && VestingAt(g, k).repaid == VestingAt(page, k).repaid + before.repaid
  }

  lemma PostMisses(g: Ledger, page: Ledger, k: Key, before: Vesting, r: Receipt)
    requires Misses(g, page, k, before)
    ensures Misses(Post(g, r), Post(page, r), k, before)
  {
    hide PostBooks;
  }

  lemma ForgetGood(s: State, g: Ledger, k: Key)
    requires Good(s, g) && k !in s.liq.providers
    ensures Good(s, Forget(g, k))
  {
    hide BookSound, Listed;
    assert forall p: nat :: BooksAt(Forget(g, k), p) == BooksAt(g, p);
    forall p: nat | p in s.liq.pools ensures PoolSound(s.liq, Forget(g, k), p) {
      assert PoolSound(s.liq, g, p);
    }
    forall j: Key ensures VestingSound(ProviderAt(s.liq.providers, j), VestingAt(Forget(g, k), j)) {
      assert VestingSound(ProviderAt(s.liq.providers, j), VestingAt(g, j));
    }
  }

  lemma SamePoolsFit(g: Ledger, page: Ledger)
    requires page.pools == g.pools && FitsAll(g)
    ensures FitsAll(page)
  {
    assert forall p: nat :: BooksAt(page, p) == BooksAt(g, p);
  }

  lemma {:induction false} PageGood(cfg: Config, calls: seq<Call>, n: nat, j: nat, k: Key)
    requires cfg.feeRate <= MAX_FEE_RATE && FitsAll(Run(cfg, calls).g) && n <= j <= |calls|
    requires k !in Run(cfg, calls[..n]).s.liq.providers
    ensures Good(Run(cfg, calls[..j]).s, NewPage(cfg, calls, n, j, k))
    ensures Misses(Run(cfg, calls[..j]).g, NewPage(cfg, calls, n, j, k), k, VestingAt(Run(cfg, calls[..n]).g, k))
    decreases j
  {
    hide Run, Good, FitsAll, Handle, Post, Misses;
    PrefixGood(cfg, calls, j);
    if j == n {
      ForgetGood(Run(cfg, calls[..n]).s, Run(cfg, calls[..n]).g, k);
      ForgetMisses(Run(cfg, calls[..n]).g, k);
    } else {
      var w, c, page := Run(cfg, calls[..j - 1]), calls[j - 1], NewPage(cfg, calls, n, j - 1, k);
      PageGood(cfg, calls, n, j - 1, k);
      LedgerStep(cfg, calls, j - 1);
      HandleGood(w.s, page, c.env, c.message);
      if Handle(w.s, c.env, c.message).Ok? {
        var r := Handle(w.s, c.env, c.message).value.1;
        PostMisses(w.g, page, k, VestingAt(Run(cfg, calls[..n]).g, k), r);
        MissesPools(Post(w.g, r), Post(page, r), k, VestingAt(Run(cfg, calls[..n]).g, k));
        SamePoolsFit(Post(w.g, r), Post(page, r));
      }
    }
  }

  lemma ForgetMisses(g: Ledger, k: Key)
    ensures Misses(g, Forget(g, k), k, VestingAt(g, k))
  {
  }

  lemma MissesPools(g: Ledger, page: Ledger, k: Key, before: Vesting)
    requires Misses(g, page, k, before)
    ensures page.pools == g.pools
  {
  }

  lemma LedgerStep(cfg: Config, calls: seq<Call>, j: nat)
    requires j < |calls|
    ensures Run(cfg, calls[..j + 1]) == Exec(Run(cfg, calls[..j]), calls[j])
  {
    hide Exec;
    assert calls[..j + 1][..j] == calls[..j];
  }

  /** Whatever a provider had vesting when it left a pool is lost for good: in every continuation
      it is paid from its schedule, beyond repetitions, only what is moved into it later. */
  lemma ExitForfeitsVesting(cfg: Config, calls: seq<Call>, n: nat, k: Key)
    requires cfg.feeRate <= MAX_FEE_RATE && FitsAll(Run(cfg, calls).g) && n <= |calls|
    requires k !in Run(cfg, calls[..n]).s.liq.providers
    ensures var l, before, after := Run(cfg, calls).s.liq, VestingAt(Run(cfg, calls[..n]).g, k), VestingAt(Run(cfg, calls).g, k);
            after.paid - before.paid + Outstanding(ProviderAt(l.providers, k))
            <= after.moved - before.moved + after.repaid - before.repaid
  {
    hide Run, FitsAll, PoolsSound, BookSound, Listed;
    assert calls[..|calls|] == calls;
    PageGood(cfg, calls, n, |calls|, k);
    assert VestingSound(ProviderAt(Run(cfg, calls).s.liq.providers, k), VestingAt(NewPage(cfg, calls, n, |calls|, k), k));
  }

  // ---------------------------------------------------------------------------------------
  // Policies, claims and tokens
  // ---------------------------------------------------------------------------------------

  /** Pools, policies and claims agree on what was paid, claim by claim and in total. */
  lemma EveryRunReconcilesPayouts(cfg: Config, calls: seq<Call>)
    requires cfg.feeRate <= MAX_FEE_RATE && FitsAll(Run(cfg, calls).g)
    ensures var s := Run(cfg, calls).s; Reconciled(s.liq.pools, s.book.policies, s.book.claims)
    ensures ClaimsSound(Run(cfg, calls).s.book)
    ensures Counted(Run(cfg, calls).s.liq.pools, Run(cfg, calls).s.book.policies)
  {
    hide Inv, Reconciled, Counted, Numbered, Indexed, ClaimsSound;
    RunGood(cfg, calls);
  }

  /** Numbering and every redundant index agree with the policies, tokens and claims. */
  lemma EveryRunIndexesPolicies(cfg: Config, calls: seq<Call>)
    requires cfg.feeRate <= MAX_FEE_RATE && FitsAll(Run(cfg, calls).g)
    ensures Numbered(Run(cfg, calls).s.book) && Indexed(Run(cfg, calls).s.book)
  {
    hide Inv, Reconciled, Counted, Numbered, Indexed, ClaimsSound;
    RunGood(cfg, calls);
  }

  /** A new policy's payment is split between the platform, which keeps at most a tenth, and the
      pool; a renewal hands the pool the same share, but its fee is not booked anywhere. */
  lemma PaymentsAreSplit(s: State, e: Env, property: nat, t: CoverageType, coverage: nat, p: nat, duration: nat,
                         event: Option<nat>, id: nat)
    requires s.cfg.feeRate <= MAX_FEE_RATE
    ensures var r := CreatePolicy(s, e, property, t, coverage, p, duration, event);
            r.Ok? ==>
              && r.value.1.PremiumTaken? && 10 * r.value.1.share >= 9 * e.value
              && r.value.1.share + r.value.0.book.platformFees == e.value + s.book.platformFees
    ensures var r := RenewPolicy(s, e, id, duration);
            r.Ok? ==>
              && r.value.1.PremiumTaken? && r.value.1.share == PremiumShare(s.cfg, e.value)
              && r.value.0.book.platformFees == s.book.platformFees
              && (r.value.1.share + r.value.0.book.platformFees == e.value + s.book.platformFees
                  <==> Fee(e.value, s.cfg.feeRate) == 0)
  {
    hide ApplicationFault, TakePremium, Deductible;
    FeeWithin(e.value, s.cfg.feeRate);
  }

  lemma FeeWithin(paid: nat, rate: nat)
    requires rate <= MAX_FEE_RATE
    ensures 10 * Fee(paid, rate) <= paid
  {
    ProductOrdered(rate, MAX_FEE_RATE, paid);
  }

  predicate Decided(claim: Claim) {
    claim.status == Approved || claim.status == Rejected || claim.status == Paid
  }

  lemma PayoutTouchesOnly(s: State, id: nat, policyId: nat, amount: nat, now: nat, c: nat)
    requires c in s.book.claims && c != id
    ensures var s' := ExecutePayout(s, id, policyId, amount, now).0;
            c in s'.book.claims && s'.book.claims[c] == s.book.claims[c]
  {
    hide Recovered, PayClaim;
    forall q ensures var s' := Recovered(s, q, amount, now);
                     s'.liq == s.liq && s'.book.claims == s.book.claims && s'.book.policies == s.book.policies {
      RecoveryTouchesOnly(s, q, amount, now);
    }
  }

  lemma ApprovalTouchesOnly(s: State, e: Env, id: nat, c: nat)
    requires ReviewFault(s.book, id, true).None? && c in s.book.claims && c != id
    ensures var s' := ApproveAndPay(s, e, id).0;
            c in s'.book.claims && s'.book.claims[c] == s.book.claims[c]
  {
    hide ExecutePayout, PayoutOf, Approval;
    var payout := PayoutOf(s.book, id);
    PayoutTouchesOnly(SetClaim(s, id, Approval(s.book.claims[id], e, payout)), id, s.book.claims[id].policy, payout, e.now, c);
  }

  lemma InnerKeepsDecided(s: State, e: Env, id: nat, approved: bool, c: nat)
    requires c in s.book.claims && Decided(s.book.claims[c])
    ensures var s' := ProcessClaimInner(s, e, id, approved).0;
            c in s'.book.claims && s'.book.claims[c] == s.book.claims[c]
  {
    hide ApproveAndPay, Rejection;
    if ReviewFault(s.book, id, approved).None? && approved {
      ApprovalTouchesOnly(s, e, id, c);
    }
  }

  /** Only submissions and reviews write claims. */
  lemma ClaimsUntouched(s: State, e: Env, m: Message)
    requires Handle(s, e, m).Ok? && !m.MProcess? && !m.MProcessInBatch? && !m.MSubmit?
    ensures Handle(s, e, m).value.0.book.claims == s.book.claims
  {
    hide Deposit, Withdraw, ClaimRewards, Reinvest, ClaimVested, CreatePool, ConfigureVesting, ExpireFrom, TakePremium,
         AnnualPremium, Exposure, Fee, Deductible, EndIn, Accrued, HasRole, SubmitClaim, ProcessClaim, ProcessInBatch;
  }

  lemma FreshClaim(b: Book)
    requires Numbered(b)
    ensures b.claimCount + 1 !in b.claims
  {
  }

  lemma SubmitKeepsDecided(s: State, e: Env, id: nat, amount: nat, ev: Evidence, nonce: nat, c: nat)
    requires Numbered(s.book) && c in s.book.claims && Decided(s.book.claims[c])
    requires SubmitClaim(s, e, id, amount, ev, nonce).Ok?
    ensures var b := SubmitClaim(s, e, id, amount, ev, nonce).value.0.book; c in b.claims && b.claims[c] == s.book.claims[c]
  {
    hide Numbered, ProcessClaimInner, EvidenceFault, HasRole, Decided;
    var n := s.book.claimCount + 1;
    FreshClaim(s.book);
    var filed := s.(book := FileClaim(s.book, n, Claim(id, e.caller, amount, Pending, e.now, None, 0, None)));
    assert filed.book.claims[c] == s.book.claims[c];
    hide FileClaim;
    InnerKeepsDecided(filed, e, n, true, c);
  }

  /** A decision is final: no message of this model changes a claim that was approved, rejected or paid, so
      none is paid twice, and an approval left unpaid by a batch stays unpaid. */
  lemma DecisionsAreFinal(s: State, e: Env, m: Message, c: nat)
    requires Numbered(s.book) && c in s.book.claims && Decided(s.book.claims[c])
    requires Handle(s, e, m).Ok?
    ensures var b := Handle(s, e, m).value.0.book; c in b.claims && b.claims[c] == s.book.claims[c]
  {
    hide Numbered, ProcessClaimInner, SubmitClaim, HasRole, Decided, Configure,
         CreateRiskPool, ConfigurePoolVesting, DepositLiquidity, CreatePolicy, RenewPolicy, CancelPolicy, ExpirePolicies,
         RegisterReinsurance, ListToken, PurchaseToken, Lift, Withdraw, ClaimRewards, Reinvest, ClaimVested;
    match m
    case MProcess(id, approved) => InnerKeepsDecided(s, e, id, approved, c);
    case MProcessInBatch(id, approved) => InnerKeepsDecided(s, e, id, approved, c);
    case MSubmit(id, amount, ev, nonce) => SubmitKeepsDecided(s, e, id, amount, ev, nonce, c);
    case _ => ClaimsUntouched(s, e, m);
  }

  // ---------------------------------------------------------------------------------------
  // Expiry
  // ---------------------------------------------------------------------------------------

  function OverdueAt(now: nat): (nat, Policy) -> int {
    (i: nat, policy: Policy) => if Overdue(policy, now) then 1 else 0
  }

  lemma {:induction false} ExpireFromTouches(l: Liq, policies: Policies, i: nat, count: nat, left: nat, now: nat)
    ensures var policies' := ExpireFrom(l, policies, i, count, left, now).1;
            && policies'.Keys == policies.Keys
            && (forall j: nat | j in policies :: policies'[j] == policies[j]
                  || (Overdue(policies[j], now) && policies'[j] == policies[j].(status := Expired)))
    decreases count + 1 - i
  {
    hide EndIn;
    if i <= count && left > 0 {
      if i in policies && Overdue(policies[i], now) {
        ExpireFromTouches(EndIn(l, policies[i].pool), policies[i := policies[i].(status := Expired)], i + 1, count, left - 1, now);
      } else {
        ExpireFromTouches(l, policies, i + 1, count, left, now);
      }
    }
  }

  lemma {:induction false} ExpireFromCounts(l: Liq, policies: Policies, i: nat, count: nat, left: nat, now: nat)
    ensures var (_, policies', n) := ExpireFrom(l, policies, i, count, left, now);
            && n <= left
            && SumBy<nat, Policy>(policies', OverdueAt(now)) == SumBy<nat, Policy>(policies, OverdueAt(now)) - n
    decreases count + 1 - i
  {
    hide EndIn;
    if i <= count && left > 0 {
      if i in policies && Overdue(policies[i], now) {
        SumInsert<nat, Policy>(policies, i, policies[i].(status := Expired), OverdueAt(now));
        ExpireFromCounts(EndIn(l, policies[i].pool), policies[i := policies[i].(status := Expired)], i + 1, count, left - 1, now);
      } else {
        ExpireFromCounts(l, policies, i + 1, count, left, now);
      }
    }
  }

  lemma {:induction false} ExpireFromClears(l: Liq, policies: Policies, i: nat, count: nat, left: nat, now: nat)
    ensures var (_, policies', n) := ExpireFrom(l, policies, i, count, left, now);
            n < left ==> forall j: nat | j in policies' && i <= j <= count :: !Overdue(policies'[j], now)
    decreases count + 1 - i
  {
    hide EndIn;
    if i <= count && left > 0 {
      if i in policies && Overdue(policies[i], now) {
        var l1, policies1 := EndIn(l, policies[i].pool), policies[i := policies[i].(status := Expired)];
        ExpireFromClears(l1, policies1, i + 1, count, left - 1, now);
        ExpireFromTouches(l1, policies1, i + 1, count, left - 1, now);
        assert policies1[i] == ExpireFrom(l, policies, i, count, left, now).1[i];
      } else {
        ExpireFromClears(l, policies, i + 1, count, left, now);
        ExpireFromTouches(l, policies, i + 1, count, left, now);
      }
    }
  }

  /** An expiry scan reports how many policies it expired, touches overdue policies only, and
      stops short of clearing them all only when its limit is used up. */
  lemma ExpireIsComplete(s: State, e: Env, maxScan: nat)
    requires Numbered(s.book)
    ensures var (s', r) := ExpirePolicies(s, e, maxScan).value;
            && r == Done(r.id)
            && SumBy<nat, Policy>(s'.book.policies, OverdueAt(e.now)) == SumBy<nat, Policy>(s.book.policies, OverdueAt(e.now)) - r.id
            && s'.book.policies.Keys == s.book.policies.Keys
            && (forall j: nat | j in s.book.policies :: s'.book.policies[j] == s.book.policies[j]
                  || (Overdue(s.book.policies[j], e.now) && s'.book.policies[j] == s.book.policies[j].(status := Expired)))
            && (maxScan > 0 ==> r.id <= maxScan)
            && (maxScan == 0 || r.id < maxScan ==> forall j: nat | j in s'.book.policies :: !Overdue(s'.book.policies[j], e.now))
  {
    var limit := if maxScan == 0 then s.book.policyCount else maxScan;
    ExpireFromCounts(s.liq, s.book.policies, 1, s.book.policyCount, limit, e.now);
    ExpireFromTouches(s.liq, s.book.policies, 1, s.book.policyCount, limit, e.now);
    ExpireFromClears(s.liq, s.book.policies, 1, s.book.policyCount, limit, e.now);
    if maxScan == 0 {
      OverdueAtMost(s.book.policies, s.book.policyCount, e.now);
      var policies := ExpireFrom(s.liq, s.book.policies, 1, s.book.policyCount, limit, e.now).1;
      NoneLeft(policies, e.now);
    }
  }

  /** Numbered policies: at most `count` can be overdue. */
  lemma {:induction false} OverdueAtMost(policies: Policies, count: nat, now: nat)
    requires forall i: nat :: i in policies <==> 1 <= i <= count
    ensures SumBy<nat, Policy>(policies, OverdueAt(now)) <= count
    decreases count
  {
    if count > 0 {
      SumRemove<nat, Policy>(policies, count, OverdueAt(now));
      OverdueAtMost(policies - {count}, count - 1, now);
    }
  }

  lemma NoneLeft(policies: Policies, now: nat)
    ensures SumBy<nat, Policy>(policies, OverdueAt(now)) <= 0 ==> forall j: nat | j in policies :: !Overdue(policies[j], now)
  {
    SumTerm<nat, Policy>(policies, OverdueAt(now));
    forall j: nat | j in policies && Overdue(policies[j], now) ensures SumBy<nat, Policy>(policies, OverdueAt(now)) >= 1 {
      assert OverdueAt(now)(j, policies[j]) == 1;
    }
  }

  // ---------------------------------------------------------------------------------------
  // The reward debt is never ahead of what was earned
  // ---------------------------------------------------------------------------------------

  /** Same providers, same pools, and no index went back. */
  ghost predicate IndexOnly(l: Liq, l': Liq) {
    && l'.providers == l.providers
    && (forall p: nat | p in l'.pools :: p in l.pools && l.pools[p].acc <= l'.pools[p].acc)
  }

  lemma IndexOnlyUnclipped(l: Liq, l': Liq)
    requires NoneClipped(l) && IndexOnly(l, l')
    ensures NoneClipped(l')
  {
    forall k: Key | k in l'.providers && k.0 in l'.pools ensures Unclipped(l'.providers[k], l'.pools[k.0].acc) {
      assert Unclipped(l.providers[k], l.pools[k.0].acc);
      EarnedGrows(l.providers[k].stake, l.pools[k.0].acc, l'.pools[k.0].acc);
    }
  }

  lemma LiquidityUnclipped(l: Liq, g: Ledger, p: nat, a: Address, amount: nat, now: nat)
    requires NoneClipped(l) && Inv(l, g)
    ensures Withdraw(l, p, a, amount, now).Ok? ==> NoneClipped(Withdraw(l, p, a, amount, now).value.0)
    ensures ClaimRewards(l, p, a, now).Ok? ==> NoneClipped(ClaimRewards(l, p, a, now).value.0)
    ensures Reinvest(l, p, a).Ok? ==> NoneClipped(Reinvest(l, p, a).value.0)
    ensures ClaimVested(l, p, a, now).Ok? ==> NoneClipped(ClaimVested(l, p, a, now).value.0)
  {
    hide Inv, NoneClipped, Earned, Penalty, Claimable;
    if p in l.pools && (p, a) in l.providers {
      var q, v := l.pools[p], l.providers[(p, a)];
      RecordUnclipped(l, p, a);
      forall q': Pool, v': Provider | q'.acc == q.acc && Unclipped(v', q.acc)
        ensures NoneClipped(Store(l, p, a, q', v')) && NoneClipped(Drop(l, p, a, q'))
      {
        StoreUnclipped(l, p, a, q', v');
      }
    }
  }

  lemma RecordUnclipped(l: Liq, p: nat, a: Address)
    requires NoneClipped(l) && p in l.pools && (p, a) in l.providers
    ensures Unclipped(l.providers[(p, a)], l.pools[p].acc)
  {
  }

  lemma {:induction false} ExpireIndexOnly(l: Liq, policies: Policies, i: nat, count: nat, left: nat, now: nat)
    ensures IndexOnly(l, ExpireFrom(l, policies, i, count, left, now).0)
    decreases count + 1 - i
  {
    if i <= count && left > 0 {
      if i in policies && Overdue(policies[i], now) {
        ExpireIndexOnly(EndIn(l, policies[i].pool), policies[i := policies[i].(status := Expired)], i + 1, count, left - 1, now);
      } else {
        ExpireIndexOnly(l, policies, i + 1, count, left, now);
      }
    }
  }

  lemma PayoutIndexOnly(s: State, id: nat, policyId: nat, amount: nat, now: nat)
    ensures IndexOnly(s.liq, ExecutePayout(s, id, policyId, amount, now).0.liq)
  {
    hide Recovered;
    if policyId in s.book.policies && s.book.policies[policyId].pool in s.liq.pools {
      RecoveryTouchesOnly(s, s.liq.pools[s.book.policies[policyId].pool], amount, now);
    }
  }

  lemma InnerIndexOnly(s: State, e: Env, id: nat, approved: bool)
    ensures IndexOnly(s.liq, ProcessClaimInner(s, e, id, approved).0.liq)
  {
    hide ExecutePayout, PayoutOf, Approval;
    if ReviewFault(s.book, id, true).None? {
      var claim, payout := s.book.claims[id], PayoutOf(s.book, id);
      PayoutIndexOnly(SetClaim(s, id, Approval(claim, e, payout)), id, claim.policy, payout, e.now);
    }
  }

  lemma PremiumIndexOnly(l: Liq, g: Ledger, p: nat, q: Pool, share: nat)
    requires Inv(l, g) && p in l.pools && q == l.pools[p].(activePolicies := q.activePolicies)
    ensures IndexOnly(l, l.(pools := l.pools[p := TakePremium(q, share)]))
  {
    assert PoolSound(l, g, p);
  }

  lemma CreatePolicyIndexOnly(s: State, g: Ledger, e: Env, property: nat, t: CoverageType, coverage: nat, p: nat,
                              duration: nat, event: Option<nat>)
    requires Good(s, g) && CreatePolicy(s, e, property, t, coverage, p, duration, event).Ok?
    ensures IndexOnly(s.liq, CreatePolicy(s, e, property, t, coverage, p, duration, event).value.0.liq)
  {
    hide Inv, BookSound, TakePremium, AnnualPremium, Exposure, Fee, Deductible, Issue, Accrued, IndexOnly;
    var q := s.liq.pools[p];
    PremiumIndexOnly(s.liq, g, p, q.(activePolicies := q.activePolicies + 1), SatSub(e.value, Fee(e.value, s.cfg.feeRate)));
  }

  lemma RenewIndexOnly(s: State, g: Ledger, e: Env, id: nat, duration: nat)
    requires Good(s, g) && RenewPolicy(s, e, id, duration).Ok?
    ensures IndexOnly(s.liq, RenewPolicy(s, e, id, duration).value.0.liq)
  {
    hide Inv, BookSound, TakePremium, Fee, Accrued, IndexOnly;
    var p := s.book.policies[id].pool;
    PremiumIndexOnly(s.liq, g, p, s.liq.pools[p], SatSub(e.value, Fee(e.value, s.cfg.feeRate)));
  }

  lemma SubmitIndexOnly(s: State, e: Env, id: nat, amount: nat, ev: Evidence, nonce: nat)
    requires SubmitClaim(s, e, id, amount, ev, nonce).Ok?
    ensures IndexOnly(s.liq, SubmitClaim(s, e, id, amount, ev, nonce).value.0.liq)
  {
    hide ProcessClaimInner, EvidenceFault, FileClaim, HasRole;
    var claim := Claim(id, e.caller, amount, Pending, e.now, None, 0, None);
    InnerIndexOnly(s.(book := FileClaim(s.book, s.book.claimCount + 1, claim)), e, s.book.claimCount + 1, true);
  }

  predicate PolicySide(m: Message) {
    !m.MCreatePool? && !m.MDeposit? && !m.MWithdraw? && !m.MClaimRewards? && !m.MReinvest? && !m.MClaimVested?
  }

  /** The policy side moves the index forward or leaves it. */
  lemma BookIndexOnly(s: State, g: Ledger, e: Env, m: Message)
    requires Good(s, g) && Handle(s, e, m).Ok? && PolicySide(m)
    ensures IndexOnly(s.liq, Handle(s, e, m).value.0.liq)
  {
    hide Good, CreatePolicy, RenewPolicy, SubmitClaim, ProcessClaimInner, ExpireFrom, HasRole, Transfer;
    match m
    case MCreatePolicy(property, kind, coverage, p, duration, event) =>
      CreatePolicyIndexOnly(s, g, e, property, kind, coverage, p, duration, event);
    case MRenew(id, duration) => RenewIndexOnly(s, g, e, id, duration);
    case MExpire(maxScan) =>
      ExpireIndexOnly(s.liq, s.book.policies, 1, s.book.policyCount, if maxScan == 0 then s.book.policyCount else maxScan, e.now);
    case MProcess(id, approved) => InnerIndexOnly(s, e, id, approved);
    case MProcessInBatch(id, approved) => InnerIndexOnly(s, e, id, approved);
    case MSubmit(id, amount, ev, nonce) => SubmitIndexOnly(s, e, id, amount, ev, nonce);
    case _ =>
  }

  lemma CreatePoolUnclipped(s: State, g: Ledger, named: bool, ratio: nat, threshold: nat)
    requires Good(s, g) && NoneClipped(s.liq)
    ensures CreatePool(s.liq, named, ratio, threshold).Ok? ==> NoneClipped(CreatePool(s.liq, named, ratio, threshold).value.0)
  {
    hide PoolSound, BookSound, Unclipped;
  }

  /** What a depositor can check before calling. */
  ghost predicate DepositCovered(s: State, e: Env, p: nat) {
    DepositLiquidity(s, e, p).Ok? ==> Covers(s.liq.pools[p], ProviderAt(s.liq.providers, (p, e.caller)), e.value)
  }

  ghost predicate DepositsCovered(cfg: Config, calls: seq<Call>, k: nat)
    requires k <= |calls|
  {
    forall i: nat | i < k && calls[i].message.MDeposit? :: DepositCovered(Run(cfg, calls[..i]).s, calls[i].env, calls[i].message.p)
  }

  lemma DepositKeepsUnclipped(s: State, e: Env, p: nat)
    requires NoneClipped(s.liq) && DepositLiquidity(s, e, p).Ok?
    ensures NoneClipped(DepositLiquidity(s, e, p).value.0.liq) <==> DepositCovered(s, e, p)
  {
    hide Deposit, NoneClipped, Covers;
    DepositFindsPool(s.liq, p, e.caller, e.value, e.now);
    DepositUnclipped(s.liq, p, e.caller, e.value, e.now);
  }

  lemma DepositFindsPool(l: Liq, p: nat, a: Address, amount: nat, now: nat)
    ensures Deposit(l, p, a, amount, now).Ok? ==> p in l.pools
  {
    hide SatAdd, SatMul;
  }

  lemma HandleUnclipped(s: State, g: Ledger, e: Env, m: Message)
    requires Good(s, g) && NoneClipped(s.liq) && Handle(s, e, m).Ok?
    ensures NoneClipped(Handle(s, e, m).value.0.liq) <==> (m.MDeposit? ==> DepositCovered(s, e, m.p))
  {
    hide Inv, BookSound, NoneClipped, DepositCovered, DepositLiquidity;
    match m
    case MCreatePool(named, ratio, threshold) => CreatePoolUnclipped(s, g, named, ratio, threshold);
    case MDeposit(p) => DepositKeepsUnclipped(s, e, p);
    case MWithdraw(p, amount) => LiquidityUnclipped(s.liq, g, p, e.caller, amount, e.now);
    case MClaimRewards(p) => LiquidityUnclipped(s.liq, g, p, e.caller, 0, e.now);
    case MReinvest(p) => LiquidityUnclipped(s.liq, g, p, e.caller, 0, e.now);
    case MClaimVested(p) => LiquidityUnclipped(s.liq, g, p, e.caller, 0, e.now);
    case _ =>
      BookIndexOnly(s, g, e, m);
      IndexOnlyUnclipped(s.liq, Handle(s, e, m).value.0.liq);
  }

  lemma StepUnclipped(cfg: Config, calls: seq<Call>, k: nat)
    requires cfg.feeRate <= MAX_FEE_RATE && FitsAll(Run(cfg, calls).g) && k < |calls|
    requires NoneClipped(Run(cfg, calls[..k]).s.liq)
    ensures NoneClipped(Run(cfg, calls[..k + 1]).s.liq)
            <==> (calls[k].message.MDeposit? ==> DepositCovered(Run(cfg, calls[..k]).s, calls[k].env, calls[k].message.p))
  {
    hide Run, Good, FitsAll, Handle, NoneClipped, Covers;
    var w, c := Run(cfg, calls[..k]), calls[k];
    PrefixGood(cfg, calls, k);
    PrefixStep(cfg, calls, k);
    if Handle(w.s, c.env, c.message).Ok? {
      HandleUnclipped(w.s, w.g, c.env, c.message);
    } else if c.message.MDeposit? {
      RefusedDeposit(w.s, c.env, c.message.p);
    }
  }

  lemma RefusedDeposit(s: State, e: Env, p: nat)
    requires Handle(s, e, MDeposit(p)).Err?
    ensures DepositCovered(s, e, p)
  {
    hide Deposit;
  }

  lemma {:induction false} CoveredIsUnclipped(cfg: Config, calls: seq<Call>, k: nat)
    requires cfg.feeRate <= MAX_FEE_RATE && FitsAll(Run(cfg, calls).g) && k <= |calls| && DepositsCovered(cfg, calls, k)
    ensures NoneClipped(Run(cfg, calls[..k]).s.liq)
    decreases k
  {
    hide Run, FitsAll, NoneClipped, DepositCovered;
    if k == 0 {
      NoProvidersUnclipped(cfg);
      assert calls[..0] == [];
    } else {
      CoveredIsUnclipped(cfg, calls, k - 1);
      StepUnclipped(cfg, calls, k - 1);
    }
  }

  /** No stored debt ever exceeds what its stake has earned, so that the saturating subtraction
      in the pending reward never clips, if and only if every accepted deposit of the run
      passed the check that its depositor could make. */
  lemma EveryRunUnclipped(cfg: Config, calls: seq<Call>)
    requires cfg.feeRate <= MAX_FEE_RATE && FitsAll(Run(cfg, calls).g)
    ensures (forall k: nat | k <= |calls| :: NoneClipped(Run(cfg, calls[..k]).s.liq)) <==> DepositsCovered(cfg, calls, |calls|)
  {
    hide Run, FitsAll, NoneClipped, DepositCovered;
    if DepositsCovered(cfg, calls, |calls|) {
      forall k: nat | k <= |calls| ensures NoneClipped(Run(cfg, calls[..k]).s.liq) {
        CoveredIsUnclipped(cfg, calls, k);
      }
    }
    if forall k: nat | k <= |calls| :: NoneClipped(Run(cfg, calls[..k]).s.liq) {
      forall i: nat | i < |calls| && calls[i].message.MDeposit?
        ensures DepositCovered(Run(cfg, calls[..i]).s, calls[i].env, calls[i].message.p)
      {
        assert NoneClipped(Run(cfg, calls[..i]).s.liq) && NoneClipped(Run(cfg, calls[..i + 1]).s.liq);
        StepUnclipped(cfg, calls, i);
      }
    }
  }

  lemma NoProvidersUnclipped(cfg: Config)
    ensures NoneClipped(Run(cfg, []).s.liq)
  {
  }
}
