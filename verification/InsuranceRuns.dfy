/** Whole runs of the insurance contract: any sequence of messages, by any callers, with any
    values and timestamps, failing ones included. */
module InsuranceRuns {
  import opened Common
  import opened Liquidity
  import opened Solvency
  import opened Rewards
  import opened Insurance
  import opened InsuranceBook

  datatype Call = Call(env: Env, message: Message)

  /** The contract's storage and the ledger of what it reported. */
  datatype World = World(s: State, g: Ledger)

  function Exec(w: World, c: Call): World {
    match Handle(w.s, c.env, c.message)
    case Ok((s, r)) => World(s, Post(w.g, r))
    case Err(_) => w
  }

  function Run(cfg: Config, calls: seq<Call>): World {
    if calls == [] then World(Genesis(cfg), Ledger(map[], map[]))
    else Exec(Run(cfg, calls[..|calls| - 1]), calls[|calls| - 1])
  }

  ghost predicate Good(s: State, g: Ledger) {
    Inv(s.liq, g) && BookSound(s.liq.pools, s.book) && s.cfg.feeRate <= MAX_FEE_RATE
  }

  ghost predicate StaysGood(g: Ledger, answer: Answer) {
    answer.Ok? && FitsAll(Post(g, answer.value.1)) ==> Good(answer.value.0, Post(g, answer.value.1))
  }

  // ---------------------------------------------------------------------------------------
  // One message
  // ---------------------------------------------------------------------------------------

  /** The liquidity messages leave claim totals and policy counters alone. */
  ghost predicate LeavesBook(l: Liq, reply: Reply) {
    reply.Ok? ==> Alike(l.pools, reply.value.0.pools)
  }

  lemma LiquidityLeavesBook(l: Liq, e: Env, p: nat, amount: nat)
    ensures LeavesBook(l, Deposit(l, p, e.caller, e.value, e.now))
    ensures LeavesBook(l, Withdraw(l, p, e.caller, amount, e.now))
  {
    hide PendingReward, Penalty, Earned, SatMul, SatAdd, MoveToVesting;
  }

  lemma RewardsLeaveBook(l: Liq, e: Env, p: nat)
    ensures LeavesBook(l, ClaimRewards(l, p, e.caller, e.now))
    ensures LeavesBook(l, Reinvest(l, p, e.caller))
    ensures LeavesBook(l, ClaimVested(l, p, e.caller, e.now))
  {
    hide PendingReward, Claimable, Earned, SatAdd, MoveToVesting, TakeVested, ClearVesting;
  }

  lemma SetupLeavesBook(l: Liq, g: Ledger, p: nat, named: bool, x: nat, y: nat, z: nat)
    requires Inv(l, g)
    ensures LeavesBook(l, CreatePool(l, named, x, y))
    ensures LeavesBook(l, ConfigureVesting(l, p, x, y, z))
  {
    hide PoolSound;
  }

  lemma LiftGood(s: State, g: Ledger, reply: Reply)
    requires Good(s, g) && Keeps(g, reply) && LeavesBook(s.liq, reply)
    ensures StaysGood(g, Lift(s, reply))
  {
    hide Inv, BookSound, FitsAll, Alike;
    if reply.Ok? {
      PoolsOnly(s.liq.pools, reply.value.0.pools, s.book);
    }
  }

  lemma LiquidityGood(s: State, g: Ledger, e: Env, p: nat, amount: nat)
    requires Good(s, g)
    ensures StaysGood(g, DepositLiquidity(s, e, p))
    ensures StaysGood(g, Lift(s, Withdraw(s.liq, p, e.caller, amount, e.now)))
    ensures StaysGood(g, Lift(s, ClaimRewards(s.liq, p, e.caller, e.now)))
    ensures StaysGood(g, Lift(s, Reinvest(s.liq, p, e.caller)))
    ensures StaysGood(g, Lift(s, ClaimVested(s.liq, p, e.caller, e.now)))
  {
    hide Inv, BookSound, FitsAll, Keeps, LeavesBook, StaysGood, Lift, Deposit, Withdraw, ClaimRewards, Reinvest, ClaimVested;
    LiquidityLeavesBook(s.liq, e, p, amount);
    RewardsLeaveBook(s.liq, e, p);
    DepositKeeps(s.liq, g, p, e.caller, e.value, e.now);
    LiftGood(s, g, Deposit(s.liq, p, e.caller, e.value, e.now));
    PausedGood(s, g, e, p);
    WithdrawKeeps(s.liq, g, p, e.caller, amount, e.now);
    LiftGood(s, g, Withdraw(s.liq, p, e.caller, amount, e.now));
    ClaimRewardsKeeps(s.liq, g, p, e.caller, e.now);
    LiftGood(s, g, ClaimRewards(s.liq, p, e.caller, e.now));
    ReinvestKeeps(s.liq, g, p, e.caller);
    LiftGood(s, g, Reinvest(s.liq, p, e.caller));
    ClaimVestedKeeps(s.liq, g, p, e.caller, e.now);
    LiftGood(s, g, ClaimVested(s.liq, p, e.caller, e.now));
  }

  lemma PausedGood(s: State, g: Ledger, e: Env, p: nat)
    requires StaysGood(g, Lift(s, Deposit(s.liq, p, e.caller, e.value, e.now)))
    ensures StaysGood(g, DepositLiquidity(s, e, p))
  {
    hide Good, FitsAll, Deposit;
  }

  lemma SetupGood(s: State, g: Ledger, e: Env, p: nat, named: bool, x: nat, y: nat, z: nat)
    requires Good(s, g)
    ensures StaysGood(g, CreateRiskPool(s, e, named, x, y))
    ensures StaysGood(g, ConfigurePoolVesting(s, e, p, x, y, z))
  {
    hide Inv, BookSound, FitsAll, Keeps, LeavesBook, CreatePool, ConfigureVesting;
    SetupLeavesBook(s.liq, g, p, named, x, y, z);
    CreatePoolKeeps(s.liq, g, named, x, y);
    LiftGood(s, g, CreatePool(s.liq, named, x, y));
    ConfigureVestingKeeps(s.liq, g, p, x, y, z);
    LiftGood(s, g, ConfigureVesting(s.liq, p, x, y, z));
  }

  lemma CreatePolicyGood(s: State, g: Ledger, e: Env, property: nat, t: CoverageType, coverage: nat, p: nat,
                         duration: nat, event: Option<nat>)
    requires Good(s, g)
    ensures StaysGood(g, CreatePolicy(s, e, property, t, coverage, p, duration, event))
  {
    hide Inv, BookSound, FitsAll, Exposure, AnnualPremium, Deductible, Fee, TakePremium, Issue, Post;
    var answer := CreatePolicy(s, e, property, t, coverage, p, duration, event);
    if answer.Ok? && FitsAll(Post(g, answer.value.1)) {
      var r, q := answer.value.1, s.liq.pools[p];
      var q1 := q.(activePolicies := q.activePolicies + 1);
      var policy := Policy(property, e.caller, coverage, e.value, Deductible(coverage, s.cfg.assessments[property].score),
                           SatTime(e.now, duration), Active, p, 0, 0, event);
      PremiumKeeps(s.liq, g, p, q1, r.share, r);
      PremiumFields(q1, r.share);
      IssueSound(s.liq.pools, s.book, policy, Fee(e.value, s.cfg.feeRate), TakePremium(q1, r.share));
    }
  }

  lemma PremiumFields(q: Pool, share: nat)
    ensures TakePremium(q, share).activePolicies == q.activePolicies
    ensures TakePremium(q, share).claimsPaid == q.claimsPaid
  {
  }

  lemma RenewGood(s: State, g: Ledger, e: Env, id: nat, duration: nat)
    requires Good(s, g)
    ensures StaysGood(g, RenewPolicy(s, e, id, duration))
  {
    hide Inv, BookSound, FitsAll, Fee, TakePremium, Post;
    var answer := RenewPolicy(s, e, id, duration);
    if answer.Ok? && FitsAll(Post(g, answer.value.1)) {
      var r, p := answer.value.1, s.book.policies[id].pool;
      var q := s.liq.pools[p];
      PremiumKeeps(s.liq, g, p, q, r.share, r);
      PremiumFields(q, r.share);
      assert Alike(s.liq.pools, answer.value.0.liq.pools);
      PolicyRewritten(s.liq.pools, s.book, id, answer.value.0.book.policies[id]);
      PoolsOnly(s.liq.pools, answer.value.0.liq.pools, answer.value.0.book);
    }
  }

  lemma EndInKeeps(l: Liq, g: Ledger, p: nat)
    requires Inv(l, g)
    ensures Inv(EndIn(l, p), g)
  {
    hide Inv;
    if p in l.pools {
      EndPolicyKeeps(l, g, p);
    }
  }

  lemma CancelGood(s: State, g: Ledger, e: Env, id: nat)
    requires Good(s, g)
    ensures StaysGood(g, CancelPolicy(s, e, id))
  {
    hide Inv, BookSound, FitsAll, EndIn;
    if CancelPolicy(s, e, id).Ok? {
      EndInKeeps(s.liq, g, s.book.policies[id].pool);
      EndSound(s.liq, s.book, id, Cancelled);
    }
  }

  lemma {:induction false} ExpireKeeps(l: Liq, g: Ledger, policies: Policies, i: nat, count: nat, left: nat, now: nat)
    requires Inv(l, g)
    ensures Inv(ExpireFrom(l, policies, i, count, left, now).0, g)
    decreases count + 1 - i
  {
    hide Inv, EndIn;
    if i <= count && left > 0 {
      if i in policies && Overdue(policies[i], now) {
        EndInKeeps(l, g, policies[i].pool);
        ExpireKeeps(EndIn(l, policies[i].pool), g, policies[i := policies[i].(status := Expired)], i + 1, count, left - 1, now);
      } else {
        ExpireKeeps(l, g, policies, i + 1, count, left, now);
      }
    }
  }

  lemma ExpireGood(s: State, g: Ledger, e: Env, maxScan: nat)
    requires Good(s, g)
    ensures StaysGood(g, ExpirePolicies(s, e, maxScan))
  {
    hide Inv, BookSound, FitsAll, ExpireFrom;
    var limit := if maxScan == 0 then s.book.policyCount else maxScan;
    ExpireKeeps(s.liq, g, s.book.policies, 1, s.book.policyCount, limit, e.now);
    ExpireSound(s.liq, s.book, 1, s.book.policyCount, limit, e.now);
  }

  lemma AgreementsOnly(pools: Pools, b: Book, agreements: map<nat, Agreement>, count: nat, lastPayout: map<nat, nat>)
    requires BookSound(pools, b)
    ensures BookSound(pools, b.(agreements := agreements, agreementCount := count, lastPayout := lastPayout))
  {
    hide Reconciled, Counted, Indexes;
    ClaimsKeep(b, b.(agreements := agreements, agreementCount := count, lastPayout := lastPayout));
  }

  lemma RecoveryTouchesOnly(s: State, q: Pool, amount: nat, now: nat)
    ensures var s' := Recovered(s, q, amount, now);
            && s'.liq == s.liq && s'.cfg == s.cfg
            && s'.book.claims == s.book.claims && s'.book.policies == s.book.policies
  {
    hide RecoverFrom;
  }

  /** A recovery writes the agreements and nothing else. */
  lemma RecoveryWritesAgreements(s: State, q: Pool, amount: nat, now: nat)
    ensures var s' := Recovered(s, q, amount, now); s' == s.(book := s.book.(agreements := s'.book.agreements))
  {
    hide RecoverFrom;
  }

  lemma RecoveredGood(s: State, g: Ledger, q: Pool, amount: nat, now: nat)
    requires Good(s, g)
    ensures var s' := Recovered(s, q, amount, now);
            && Good(s', g) && s'.liq == s.liq && s'.book.claims == s.book.claims && s'.book.policies == s.book.policies
  {
    hide Inv, BookSound, RecoverFrom;
    var s' := Recovered(s, q, amount, now);
    RecoveryTouchesOnly(s, q, amount, now);
    AgreementsOnly(s.liq.pools, s.book, s'.book.agreements, s.book.agreementCount, s.book.lastPayout);
  }

  lemma PayOutGood(s: State, g: Ledger, id: nat, now: nat)
    requires Good(s, g) && id in s.book.claims && s.book.claims[id].status == Approved && s.book.claims[id].payout > 0
    requires s.book.claims[id].policy in s.book.policies
    requires var p := s.book.policies[s.book.claims[id].policy].pool;
             p in s.liq.pools && s.liq.pools[p].availableCapital >= s.book.claims[id].payout
    ensures var claim := s.book.claims[id];
            StaysGood(g, Ok((PayOut(s, id, claim.policy, claim.payout, now),
                             ClaimPaid(s.book.policies[claim.policy].pool, claim.payout))))
  {
    hide Inv, BookSound, FitsAll, Post;
    var claim := s.book.claims[id];
    var p := s.book.policies[claim.policy].pool;
    var s' := PayOut(s, id, claim.policy, claim.payout, now);
    AgreementsOnly(s.liq.pools, s.book, s.book.agreements, s.book.agreementCount, s'.book.lastPayout);
    if FitsAll(Post(g, ClaimPaid(p, claim.payout))) {
      PayClaimKeeps(s.liq, g, p, claim.payout, ClaimPaid(p, claim.payout));
      PayoutSound(s.liq.pools, s.book.(lastPayout := s'.book.lastPayout), id, claim.policy, s'.book.policies[claim.policy],
                  PayClaim(s.liq.pools[p], claim.payout));
    }
  }

  /** A payout keeps everything, whether it succeeds or leaves the approval unpaid. */
  lemma PayoutGood(s: State, g: Ledger, id: nat, now: nat)
    requires Good(s, g) && id in s.book.claims && s.book.claims[id].status == Approved
    ensures var (s', r) := ExecutePayout(s, id, s.book.claims[id].policy, s.book.claims[id].payout, now);
            if r.Ok? then StaysGood(g, Ok((s', r.value))) else Good(s', g)
  {
    hide Good, Recovered, PayOut, Post, FitsAll;
    var claim := s.book.claims[id];
    if claim.payout > 0 {
      PolicyOfClaim(s, g, id);
      var q := s.liq.pools[s.book.policies[claim.policy].pool];
      RecoveredGood(s, g, q, claim.payout, now);
      if q.availableCapital >= claim.payout {
        PayOutGood(Recovered(s, q, claim.payout, now), g, id, now);
      }
    } else {
      PostDone(g, id);
    }
  }

  lemma DecideGood(s: State, g: Ledger, id: nat, claim: Claim)
    requires Good(s, g) && id in s.book.claims && s.book.claims[id].status != Paid && claim.status != Paid
    requires claim.policy == s.book.claims[id].policy && claim.amount == s.book.claims[id].amount
    requires claim.policy in s.book.policies
    requires claim.status == Approved ==> claim.payout == PayoutOf(s.book, id)
    ensures Good(SetClaim(s, id, claim), g)
  {
    hide Inv, BookSound;
    DecideSound(s.liq.pools, s.book, id, claim);
  }

  lemma InnerGood(s: State, g: Ledger, e: Env, id: nat, approved: bool)
    requires Good(s, g)
    ensures var (s', r) := ProcessClaimInner(s, e, id, approved);
            if r.Ok? then StaysGood(g, Ok((s', r.value))) else Good(s', g)
  {
    hide Good, FitsAll, ApproveAndPay, Post;
    if ReviewFault(s.book, id, approved).None? {
      PolicyOfClaim(s, g, id);
      if approved {
        ApproveGood(s, g, e, id);
      } else {
        DecideGood(s, g, id, Rejection(s.book.claims[id], e));
        PostDone(g, id);
      }
    }
  }

  lemma ApproveGood(s: State, g: Ledger, e: Env, id: nat)
    requires Good(s, g) && ReviewFault(s.book, id, true).None?
    ensures var (s', r) := ApproveAndPay(s, e, id);
            if r.Ok? then StaysGood(g, Ok((s', r.value))) else Good(s', g)
  {
    hide Good, StaysGood, ExecutePayout, PayoutOf;
    var approval := Approval(s.book.claims[id], e, PayoutOf(s.book, id));
    DecideGood(s, g, id, approval);
    PayoutGood(SetClaim(s, id, approval), g, id, e.now);
  }

  lemma PolicyOfClaim(s: State, g: Ledger, id: nat)
    requires Good(s, g) && id in s.book.claims
    ensures s.book.claims[id].policy in s.book.policies
    ensures s.book.policies[s.book.claims[id].policy].pool in s.liq.pools
  {
    hide Inv;
    ClaimKnown(s.liq.pools, s.book, id);
  }

  lemma PostDone(g: Ledger, id: nat)
    ensures Post(g, Done(id)) == g
  {
  }

  lemma ProcessGood(s: State, g: Ledger, e: Env, id: nat, approved: bool)
    requires Good(s, g)
    ensures StaysGood(g, ProcessClaim(s, e, id, approved))
    ensures StaysGood(g, ProcessInBatch(s, e, id, approved))
  {
    hide Inv, BookSound, FitsAll, ProcessClaimInner, Post;
    InnerGood(s, g, e, id, approved);
    PostDone(g, 0);
  }

  lemma SubmitGood(s: State, g: Ledger, e: Env, id: nat, amount: nat, ev: Evidence, nonce: nat)
    requires Good(s, g)
    ensures StaysGood(g, SubmitClaim(s, e, id, amount, ev, nonce))
  {
    hide Inv, BookSound, FitsAll, ProcessClaim, EvidenceFault, FileClaim, Post, HasRole;
    var b := s.book;
    if SubmitClaim(s, e, id, amount, ev, nonce).Ok? {
      var claim := Claim(id, e.caller, amount, Pending, e.now, None, 0, None);
      FileSound(s.liq.pools, b, claim);
      var filed := FileClaim(b, b.claimCount + 1, claim);
      if s.cfg.oracle.Some? && b.policies[id].event == Some(AUTO_APPROVED_EVENT) {
        ProcessGood(s.(book := filed), g, e, b.claimCount + 1, true);
      } else {
        PostDone(g, b.claimCount + 1);
        NoncesOnly(s.liq.pools, filed, filed.usedEvidence + {(id, ev.kind)}, filed.lastClaim[e.caller := e.now],
                   filed.nonces[e.caller := nonce + 1]);
      }
    }
  }

  lemma NoncesOnly(pools: Pools, b: Book, used: set<(nat, string)>, lastClaim: map<Address, nat>, nonces: map<Address, nat>)
    requires BookSound(pools, b)
    ensures BookSound(pools, b.(usedEvidence := used, lastClaim := lastClaim, nonces := nonces))
  {
    hide Reconciled, Counted, Indexes;
    ClaimsKeep(b, b.(usedEvidence := used, lastClaim := lastClaim, nonces := nonces));
  }

  lemma MarketGood(s: State, g: Ledger, e: Env, id: nat, price: nat)
    requires Good(s, g)
    ensures StaysGood(g, ListToken(s, e, id, price))
    ensures StaysGood(g, PurchaseToken(s, e, id))
  {
    hide Inv, BookSound, FitsAll, Transfer, Post;
    PostDone(g, id);
    if ListToken(s, e, id, price).Ok? {
      ListSound(s.liq.pools, s.book, id, price);
    }
    if PurchaseToken(s, e, id).Ok? {
      TransferSound(s.liq.pools, s.book, id, e.caller);
    }
  }

  lemma ReinsureGood(s: State, g: Ledger, e: Env, reinsurer: Address, limit: nat, retention: nat, rate: nat, coverages: nat, duration: nat)
    requires Good(s, g)
    ensures StaysGood(g, RegisterReinsurance(s, e, reinsurer, limit, retention, rate, coverages, duration))
  {
    hide Inv, BookSound, FitsAll;
    var answer := RegisterReinsurance(s, e, reinsurer, limit, retention, rate, coverages, duration);
    if answer.Ok? {
      var b := answer.value.0.book;
      AgreementsOnly(s.liq.pools, s.book, b.agreements, b.agreementCount, b.lastPayout);
    }
  }

  lemma ConfigureGood(s: State, g: Ledger, cfg: Config)
    requires Good(s, g)
    ensures StaysGood(g, Configure(s, cfg))
  {
    hide Inv, BookSound, FitsAll;
    PostDone(g, 0);
  }

  /** Every message keeps the storage and the ledger in agreement. */
  lemma HandleGood(s: State, g: Ledger, e: Env, m: Message)
    requires Good(s, g)
    ensures StaysGood(g, Handle(s, e, m))
  {
    hide StaysGood, Good, Configure, CreateRiskPool, ConfigurePoolVesting, DepositLiquidity, CreatePolicy, RenewPolicy,
         CancelPolicy, ExpirePolicies, SubmitClaim, ProcessClaim, ProcessInBatch, RegisterReinsurance, ListToken, PurchaseToken,
         Lift, Withdraw, ClaimRewards, Reinvest, ClaimVested;
    match m
    case MConfigure(cfg) => ConfigureGood(s, g, cfg);
    case MCreatePool(named, ratio, threshold) => SetupGood(s, g, e, 0, named, ratio, threshold, 0);
    case MConfigureVesting(p, cliff, duration, bps) => SetupGood(s, g, e, p, false, cliff, duration, bps);
    case MDeposit(p) => LiquidityGood(s, g, e, p, 0);
    case MWithdraw(p, amount) => LiquidityGood(s, g, e, p, amount);
    case MClaimRewards(p) => LiquidityGood(s, g, e, p, 0);
    case MReinvest(p) => LiquidityGood(s, g, e, p, 0);
    case MClaimVested(p) => LiquidityGood(s, g, e, p, 0);
    case MCreatePolicy(property, kind, coverage, p, duration, event) =>
      CreatePolicyGood(s, g, e, property, kind, coverage, p, duration, event);
    case MRenew(id, duration) => RenewGood(s, g, e, id, duration);
    case MCancel(id) => CancelGood(s, g, e, id);
    case MExpire(maxScan) => ExpireGood(s, g, e, maxScan);
    case MSubmit(id, amount, evidence, nonce) => SubmitGood(s, g, e, id, amount, evidence, nonce);
    case MProcess(id, approved) => ProcessGood(s, g, e, id, approved);
    case MProcessInBatch(id, approved) => ProcessGood(s, g, e, id, approved);
    case MReinsure(reinsurer, limit, retention, rate, coverages, duration) =>
      ReinsureGood(s, g, e, reinsurer, limit, retention, rate, coverages, duration);
    case MList(id, price) => MarketGood(s, g, e, id, price);
    case MPurchase(id) => MarketGood(s, g, e, id, 0);
  }

  // ---------------------------------------------------------------------------------------
  // Every run
  // ---------------------------------------------------------------------------------------

  lemma GenesisGood(cfg: Config)
    requires cfg.feeRate <= MAX_FEE_RATE
    ensures Good(Genesis(cfg), Ledger(map[], map[]))
  {
  }

  lemma {:induction false} RunGood(cfg: Config, calls: seq<Call>)
    requires cfg.feeRate <= MAX_FEE_RATE && FitsAll(Run(cfg, calls).g)
    ensures Good(Run(cfg, calls).s, Run(cfg, calls).g)
  {
    hide Good, FitsAll, Handle, Post;
    if calls == [] {
      GenesisGood(cfg);
    } else {
      var w, c := Run(cfg, calls[..|calls| - 1]), calls[|calls| - 1];
      var answer := Handle(w.s, c.env, c.message);
      if answer.Ok? {
        PostGrows(w.g, answer.value.1);
      }
      RunGood(cfg, calls[..|calls| - 1]);
      HandleGood(w.s, w.g, c.env, c.message);
    }
  }

  // ---------------------------------------------------------------------------------------
  // Prefixes of a run
  // ---------------------------------------------------------------------------------------

  function After(s: State, e: Env, m: Message): State {
    if Handle(s, e, m).Ok? then Handle(s, e, m).value.0 else s
  }

  lemma RunStep(cfg: Config, calls: seq<Call>)
    requires calls != []
    ensures var n := |calls| - 1;
            Run(cfg, calls).s == After(Run(cfg, calls[..n]).s, calls[n].env, calls[n].message)
  {
    hide Handle, Post;
  }

  /** One prefix to the next. */
  lemma PrefixStep(cfg: Config, calls: seq<Call>, k: nat)
    requires k < |calls|
    ensures Run(cfg, calls[..k + 1]).s == After(Run(cfg, calls[..k]).s, calls[k].env, calls[k].message)
  {
    hide Run, After;
    assert calls[..k + 1][..k] == calls[..k];
    RunStep(cfg, calls[..k + 1]);
  }

  lemma {:induction false} PrefixGood(cfg: Config, calls: seq<Call>, k: nat)
    requires cfg.feeRate <= MAX_FEE_RATE && FitsAll(Run(cfg, calls).g) && k <= |calls|
    ensures Good(Run(cfg, calls[..k]).s, Run(cfg, calls[..k]).g) && FitsAll(Run(cfg, calls[..k]).g)
  {
    hide Good, FitsAll, Handle, Post;
    if k == |calls| {
      assert calls[..k] == calls;
      RunGood(cfg, calls);
    } else {
      var n := |calls| - 1;
      assert calls[..n][..k] == calls[..k];
      var answer := Handle(Run(cfg, calls[..n]).s, calls[n].env, calls[n].message);
      if answer.Ok? {
        PostGrows(Run(cfg, calls[..n]).g, answer.value.1);
      }
      PrefixGood(cfg, calls[..n], k);
    }
  }
}
