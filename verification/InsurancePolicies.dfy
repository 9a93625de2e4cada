/** What happens to a policy over a run: what it is sold for, what claims can take out of it,
    how its evidence is used up, and where a renewal leads. */
module InsurancePolicies {
  import opened Common
  import opened Liquidity
  import opened Solvency
  import opened Insurance
  import opened InsuranceBook
  import opened InsuranceRuns
  import opened InsuranceTheorems

  // ---------------------------------------------------------------------------------------
  // Prices
  // ---------------------------------------------------------------------------------------

  /** More coverage or a worse score never costs less, in premium or deductible. The deductible,
      announced as five percent scaled by risk, never passes two percent of the coverage, and
      the premium never passes 15 millionths of it. */
  lemma PricesFollowRisk(coverage: nat, coverage': nat, score: nat, score': nat, t: CoverageType)
    requires coverage <= coverage' && score' <= score
    ensures AnnualPremium(coverage, score, t) <= AnnualPremium(coverage', score', t)
    ensures Deductible(coverage, score) <= Deductible(coverage', score')
    ensures 50 * Deductible(coverage, score) <= coverage
    ensures 1_000_000 * AnnualPremium(coverage, score, t) <= 15 * coverage
  {
    hide SatMul;
    var risk, risk', kind := RiskMultiplier(score), RiskMultiplier(score'), CoverageMultiplier(t);
    SatOrdered(coverage, coverage', BASE_RATE, BASE_RATE);
    SatOrdered(SatMul(coverage, BASE_RATE), SatMul(coverage', BASE_RATE), risk, risk');
    SatOrdered(SatMul(SatMul(coverage, BASE_RATE), risk), SatMul(SatMul(coverage', BASE_RATE), risk'), kind, kind);
    SatOrdered(coverage, coverage', 500, 500);
    SatOrdered(SatMul(coverage, 500), SatMul(coverage', 500), risk, risk');
    SatWithin(coverage, 500, 500);
    SatWithin(SatMul(coverage, 500), risk, 400);
    SatWithin(coverage, BASE_RATE, BASE_RATE);
    SatWithin(SatMul(coverage, BASE_RATE), risk, 400);
    SatWithin(SatMul(SatMul(coverage, BASE_RATE), risk), kind, 250);
  }

  lemma SatWithin(x: nat, factor: nat, most: nat)
    requires factor <= most
    ensures SatMul(x, factor) <= most * x
  {
    ProductOrdered(factor, most, x);
  }

  /** A premium that reaches the minimum comes with a deductible, so every policy has one. */
  lemma SoldWithDeductible(coverage: nat, score: nat, t: CoverageType)
    requires AnnualPremium(coverage, score, t) >= MIN_PREMIUM
    ensures Deductible(coverage, score) > 0
  {
    hide SatMul;
    PricesFollowRisk(coverage, coverage, score, score, t);
    SatAtLeast(coverage, 500);
    SatAtLeast(SatMul(coverage, 500), RiskMultiplier(score));
  }

  lemma SatAtLeast(x: nat, factor: nat)
    requires factor > 0
    ensures SatMul(x, factor) >= x || SatMul(x, factor) == U128_MAX
  {
    ProductOrdered(1, factor, x);
  }

  // ---------------------------------------------------------------------------------------
  // One message and one policy
  // ---------------------------------------------------------------------------------------

  /** The terms of a policy never change and its payouts only add up; a renewed policy stays
      renewed, with the same holder, unless payouts use up its coverage. */
  ghost predicate Evolves(p: Policy, p': Policy) {
    && p'.property == p.property && p'.coverage == p.coverage && p'.deductible == p.deductible && p'.pool == p.pool
    && p'.totalClaimed >= p.totalClaimed
    && (p.status == Renewed || p.status == Claimed ==>
          p'.holder == p.holder && (p'.status == p.status || p'.status == Claimed))
  }

  /** What approving claim `c` pays on policy `i`: nothing when the review is refused or the
      pool is short. */
  function PayoutOn(s: State, c: nat, i: nat): nat {
    if ReviewFault(s.book, c, true).Some? || s.book.claims[c].policy != i then 0
    else if s.book.policies[i].pool !in s.liq.pools then 0
    else if s.liq.pools[s.book.policies[i].pool].availableCapital < PayoutOf(s.book, c) then 0
    else PayoutOf(s.book, c)
  }

  /** The claim that a submission files. */
  function Submitted(s: State, e: Env, i: nat, amount: nat): State
    requires i in s.book.policies
  {
    s.(book := FileClaim(s.book, s.book.claimCount + 1, Claim(i, e.caller, amount, Pending, e.now, None, 0, None)))
  }

  predicate ReviewedAtOnce(s: State, i: nat) {
    s.cfg.oracle.Some? && i in s.book.policies && s.book.policies[i].event == Some(AUTO_APPROVED_EVENT)
  }

  /** What an accepted message pays on policy `i`. */
  function PaidOut(s: State, e: Env, m: Message, i: nat): nat {
    match m
    case MProcess(c, approved) => if approved then PayoutOn(s, c, i) else 0
    case MProcessInBatch(c, approved) => if approved then PayoutOn(s, c, i) else 0
    case MSubmit(j, amount, _, _) =>
      if ReviewedAtOnce(s, j) then PayoutOn(Submitted(s, e, j, amount), s.book.claimCount + 1, i) else 0
    case _ => 0
  }

  /** A policy as it is sold. */
  predicate Sold(policy: Policy) {
    policy.totalClaimed == 0 && 0 < policy.deductible && 50 * policy.deductible <= policy.coverage
  }

  ghost predicate Steps(s: State, e: Env, m: Message) {
    Handle(s, e, m).Ok? ==>
      var policies, policies' := s.book.policies, Handle(s, e, m).value.0.book.policies;
      && (forall i: nat | i in policies ::
            && i in policies' && Evolves(policies[i], policies'[i])
            && policies'[i].totalClaimed == policies[i].totalClaimed + PaidOut(s, e, m, i))
      && (forall i: nat | i in policies' && i !in policies :: Sold(policies'[i]))
  }

  predicate LeavesPolicies(m: Message) {
    !m.MCreatePolicy? && !m.MRenew? && !m.MCancel? && !m.MExpire? && !m.MSubmit? && !m.MProcess? && !m.MProcessInBatch?
    && !m.MPurchase?
  }

  lemma OthersLeavePolicies(s: State, e: Env, m: Message)
    requires LeavesPolicies(m)
    ensures Handle(s, e, m).Ok? ==> Handle(s, e, m).value.0.book.policies == s.book.policies
  {
    hide Deposit, Withdraw, ClaimRewards, Reinvest, ClaimVested, CreatePool, ConfigureVesting, HasRole;
  }

  lemma OthersStep(s: State, e: Env, m: Message)
    requires LeavesPolicies(m)
    ensures Steps(s, e, m)
  {
    hide Handle;
    OthersLeavePolicies(s, e, m);
  }

  lemma CreateSteps(s: State, e: Env, property: nat, t: CoverageType, coverage: nat, p: nat, duration: nat, event: Option<nat>)
    requires s.book.policyCount + 1 !in s.book.policies
    ensures Steps(s, e, MCreatePolicy(property, t, coverage, p, duration, event))
  {
    hide ApplicationFault, AnnualPremium, Deductible, TakePremium, Fee, PremiumShare, Accrued, PayoutOn;
    if CreatePolicy(s, e, property, t, coverage, p, duration, event).Ok? {
      AcceptedApplication(s, e, property, t, coverage, p, duration, event);
      var score := s.cfg.assessments[property].score;
      PricesFollowRisk(coverage, coverage, score, score, t);
    }
  }

  lemma RenewSteps(s: State, e: Env, i: nat, duration: nat)
    ensures Steps(s, e, MRenew(i, duration))
  {
    hide TakePremium, PremiumShare, Accrued, PayoutOn;
  }

  lemma CancelSteps(s: State, e: Env, i: nat)
    ensures Steps(s, e, MCancel(i))
  {
    hide EndIn, HasRole, PayoutOn;
  }

  lemma ScanSteps(l: Liq, policies: Policies, count: nat, limit: nat, now: nat)
    ensures var policies' := ExpireFrom(l, policies, 1, count, limit, now).1;
            && policies'.Keys == policies.Keys
            && (forall i: nat | i in policies ::
                  Evolves(policies[i], policies'[i]) && policies'[i].totalClaimed == policies[i].totalClaimed)
  {
    hide ExpireFrom;
    ExpireFromTouches(l, policies, 1, count, limit, now);
  }

  lemma ExpireSteps(s: State, e: Env, maxScan: nat)
    ensures Steps(s, e, MExpire(maxScan))
  {
    hide ExpireFrom, Evolves, PayoutOn;
    ScanSteps(s.liq, s.book.policies, s.book.policyCount, if maxScan == 0 then s.book.policyCount else maxScan, e.now);
  }

  lemma PurchaseSteps(s: State, e: Env, id: nat)
    ensures Steps(s, e, MPurchase(id))
  {
    hide Without, PayoutOn;
  }

  /** Paying a claim touches its own policy only. */
  lemma PayoutSteps(s: State, c: nat, i: nat, amount: nat, now: nat)
    requires i in s.book.policies
    ensures var s' := ExecutePayout(s, c, i, amount, now).0;
            && s'.book.policies.Keys == s.book.policies.Keys
            && (forall j: nat | j in s.book.policies ::
                  && Evolves(s.book.policies[j], s'.book.policies[j])
                  && s'.book.policies[j].totalClaimed == s.book.policies[j].totalClaimed
                     + if j == i && s.book.policies[i].pool in s.liq.pools
                          && s.liq.pools[s.book.policies[i].pool].availableCapital >= amount then amount else 0)
  {
    hide Recovered, PayClaim;
    var p := s.book.policies[i].pool;
    if p in s.liq.pools {
      RecoveryTouchesOnly(s, s.liq.pools[p], amount, now);
    }
  }

  lemma InnerSteps(s: State, e: Env, c: nat, approved: bool)
    ensures var s' := ProcessClaimInner(s, e, c, approved).0;
            && s'.book.policies.Keys == s.book.policies.Keys
            && (forall j: nat | j in s.book.policies ::
                  && Evolves(s.book.policies[j], s'.book.policies[j])
                  && s'.book.policies[j].totalClaimed
                     == s.book.policies[j].totalClaimed + if approved then PayoutOn(s, c, j) else 0)
  {
    hide ExecutePayout, PayoutOf, Approval, Rejection;
    if approved && ReviewFault(s.book, c, approved).None? {
      var payout := PayoutOf(s.book, c);
      PayoutSteps(SetClaim(s, c, Approval(s.book.claims[c], e, payout)), c, s.book.claims[c].policy, payout, e.now);
    }
  }

  lemma ProcessSteps(s: State, e: Env, c: nat, approved: bool)
    ensures Steps(s, e, MProcess(c, approved)) && Steps(s, e, MProcessInBatch(c, approved))
  {
    hide ProcessClaimInner, Evolves, PayoutOn, HasRole;
    InnerSteps(s, e, c, approved);
  }

  lemma FilingSteps(s: State, e: Env, i: nat, amount: nat)
    requires i in s.book.policies
    ensures var s' := Submitted(s, e, i, amount);
            && s'.book.policies.Keys == s.book.policies.Keys
            && (forall j: nat | j in s.book.policies ::
                  && Evolves(s.book.policies[j], s'.book.policies[j])
                  && s'.book.policies[j] == s.book.policies[j].(claimsCount := s'.book.policies[j].claimsCount))
  {
  }

  lemma SubmitFinds(s: State, e: Env, i: nat, amount: nat, ev: Evidence, nonce: nat)
    requires SubmitFault(s, e, i, amount, ev, nonce).None?
    ensures i in s.book.policies
  {
    hide EvidenceFault;
  }

  /** Filing and reviewing at once. */
  lemma FiledSteps(s: State, e: Env, i: nat, amount: nat)
    requires i in s.book.policies
    ensures var s', s1, c := ProcessClaimInner(Submitted(s, e, i, amount), e, s.book.claimCount + 1, true).0,
                             Submitted(s, e, i, amount), s.book.claimCount + 1;
            && s'.book.policies.Keys == s.book.policies.Keys
            && (forall j: nat | j in s.book.policies ::
                  && Evolves(s.book.policies[j], s'.book.policies[j])
                  && s'.book.policies[j].totalClaimed == s.book.policies[j].totalClaimed + PayoutOn(s1, c, j))
  {
    hide ProcessClaimInner, Submitted, PayoutOn;
    FilingSteps(s, e, i, amount);
    InnerSteps(Submitted(s, e, i, amount), e, s.book.claimCount + 1, true);
  }

  lemma SubmitSteps(s: State, e: Env, i: nat, amount: nat, ev: Evidence, nonce: nat)
    ensures Steps(s, e, MSubmit(i, amount, ev, nonce))
  {
    hide ProcessClaimInner, FileClaim, PayoutOn, HasRole, SubmitFault, Evolves;
    if SubmitFault(s, e, i, amount, ev, nonce).None? {
      SubmitFinds(s, e, i, amount, ev, nonce);
      FilingSteps(s, e, i, amount);
      FiledSteps(s, e, i, amount);
    }
  }

  /** Every message: terms stay, payouts add up, nothing renewed comes back, and a new policy
      has a deductible. */
  lemma HandleSteps(s: State, e: Env, m: Message)
    requires Numbered(s.book)
    ensures Steps(s, e, m)
  {
    hide Steps;
    match m
    case MCreatePolicy(property, kind, coverage, p, duration, event) =>
      CreateSteps(s, e, property, kind, coverage, p, duration, event);
    case MRenew(id, duration) => RenewSteps(s, e, id, duration);
    case MCancel(id) => CancelSteps(s, e, id);
    case MExpire(maxScan) => ExpireSteps(s, e, maxScan);
    case MSubmit(id, amount, evidence, nonce) => SubmitSteps(s, e, id, amount, evidence, nonce);
    case MProcess(id, approved) => ProcessSteps(s, e, id, approved);
    case MProcessInBatch(id, approved) => ProcessSteps(s, e, id, approved);
    case MPurchase(id) => PurchaseSteps(s, e, id);
    case _ => OthersStep(s, e, m);
  }

  // ---------------------------------------------------------------------------------------
  // Coverage
  // ---------------------------------------------------------------------------------------

  /** An approval that the pool can pay adds the claim's payout to its policy, with no look at
      the coverage that is left: the policy stays within it if and only if the payout fits. */
  lemma ApprovalPays(s: State, e: Env, c: nat)
    requires !s.cfg.paused && HasRole(s.cfg, e.caller, Assessor) && ReviewFault(s.book, c, true).None?
    requires var p := s.book.policies[s.book.claims[c].policy].pool;
             p in s.liq.pools && PayoutOf(s.book, c) <= s.liq.pools[p].availableCapital
    ensures var r, i, payout := ProcessClaim(s, e, c, true), s.book.claims[c].policy, PayoutOf(s.book, c);
            var policy := s.book.policies[i];
            && r.Ok? && r.value.0.cfg == s.cfg
            && (forall d: nat | d in s.book.claims && d != c ::
                  d in r.value.0.book.claims && r.value.0.book.claims[d] == s.book.claims[d])
            && i in r.value.0.book.policies
            && var policy' := r.value.0.book.policies[i];
            && policy'.totalClaimed == policy.totalClaimed + payout
            && policy'.pool == policy.pool && policy'.deductible == policy.deductible && policy'.coverage == policy.coverage
            && (policy.totalClaimed <= policy.coverage ==>
                  (policy'.totalClaimed <= policy'.coverage <==> payout <= policy.coverage - policy.totalClaimed))
            && policy.pool in r.value.0.liq.pools
            && r.value.0.liq.pools[policy.pool].availableCapital == s.liq.pools[policy.pool].availableCapital - payout
  {
    hide Recovered, PayoutOf;
    var claim, payout := s.book.claims[c], PayoutOf(s.book, c);
    var s1 := SetClaim(s, c, Approval(claim, e, payout));
    RecoveryTouchesOnly(s1, s.liq.pools[s.book.policies[claim.policy].pool], payout, e.now);
  }

  /** Remaining coverage is checked when a claim is filed, not when it is paid: two open claims
      are both paid, and together they pass the coverage exactly when their payouts do. */
  lemma CoverageCanBeExceeded(s: State, e: Env, c1: nat, c2: nat)
    requires !s.cfg.paused && HasRole(s.cfg, e.caller, Assessor) && c1 != c2
    requires ReviewFault(s.book, c1, true).None? && ReviewFault(s.book, c2, true).None?
    requires s.book.claims[c1].policy == s.book.claims[c2].policy
    requires var p := s.book.policies[s.book.claims[c1].policy].pool;
             && p in s.liq.pools
             && PayoutOf(s.book, c1) + PayoutOf(s.book, c2) <= s.liq.pools[p].availableCapital
    ensures var i := s.book.claims[c1].policy;
            var policy, first := s.book.policies[i], ProcessClaim(s, e, c1, true);
            && first.Ok?
            && var second := ProcessClaim(first.value.0, e, c2, true);
            && second.Ok?
            && i in second.value.0.book.policies
            && var policy' := second.value.0.book.policies[i];
            && policy'.totalClaimed == policy.totalClaimed + PayoutOf(s.book, c1) + PayoutOf(s.book, c2)
            && policy'.coverage == policy.coverage
            && (policy'.totalClaimed > policy'.coverage
                <==> PayoutOf(s.book, c1) + PayoutOf(s.book, c2) > policy.coverage - policy.totalClaimed)
  {
    hide ProcessClaim;
    ApprovalPays(s, e, c1);
    ApprovalPays(ProcessClaim(s, e, c1, true).value.0, e, c2);
  }

  /** Two open claims for the whole coverage of a policy as the contract sells it are paid with
      one deductible taken from each, which is nearly twice the coverage. */
  lemma FullClaimsExceedCoverage(s: State, e: Env, c1: nat, c2: nat)
    requires !s.cfg.paused && HasRole(s.cfg, e.caller, Assessor) && c1 != c2
    requires ReviewFault(s.book, c1, true).None? && ReviewFault(s.book, c2, true).None?
    requires s.book.claims[c1].policy == s.book.claims[c2].policy && Sold(s.book.policies[s.book.claims[c1].policy])
    requires var policy := s.book.policies[s.book.claims[c1].policy];
             && s.book.claims[c1].amount == s.book.claims[c2].amount == policy.coverage
             && policy.pool in s.liq.pools
             && 2 * (policy.coverage - policy.deductible) <= s.liq.pools[policy.pool].availableCapital
    ensures var i := s.book.claims[c1].policy;
            var policy, first := s.book.policies[i], ProcessClaim(s, e, c1, true);
            && first.Ok?
            && var second := ProcessClaim(first.value.0, e, c2, true);
            && second.Ok?
            && i in second.value.0.book.policies
            && second.value.0.book.policies[i].totalClaimed == 2 * (policy.coverage - policy.deductible) > policy.coverage
  {
    hide ProcessClaim;
    CoverageCanBeExceeded(s, e, c1, c2);
  }

  /** The claim that a message approves, if its caller may. */
  function ApprovedBy(s: State, e: Env, m: Message): Option<nat> {
    match m
    case MProcess(c, approved) => if approved && !s.cfg.paused && HasRole(s.cfg, e.caller, Assessor) then Some(c) else None
    case MProcessInBatch(c, approved) => if approved && HasRole(s.cfg, e.caller, Assessor) then Some(c) else None
    case _ => None
  }

  /** What an assessor can check before approving: the pool will pay more than policy `i` has
      left. */
  predicate Exceeds(s: State, e: Env, m: Message, i: nat) {
    && i in s.book.policies && ApprovedBy(s, e, m).Some?
    && PayoutOn(s, ApprovedBy(s, e, m).value, i) > SatSub(s.book.policies[i].coverage, s.book.policies[i].totalClaimed)
  }

  predicate WithinCoverage(s: State, i: nat)
    requires i in s.book.policies
  {
    s.book.policies[i].totalClaimed <= s.book.policies[i].coverage
  }

  lemma RefusedPaysNothing(s: State, e: Env, m: Message, i: nat)
    requires Handle(s, e, m).Err? && ApprovedBy(s, e, m).Some?
    ensures PayoutOn(s, ApprovedBy(s, e, m).value, i) == 0
  {
    hide PayClaim, Recovered, PayoutOf;
  }

  lemma PayoutWithinClaim(s: State, c: nat, i: nat)
    ensures PayoutOn(s, c, i) <= if c in s.book.claims && s.book.claims[c].policy == i then s.book.claims[c].amount else 0
  {
  }

  /** A claim reviewed on submission fits what its policy has left. */
  lemma SubmissionFits(s: State, e: Env, j: nat, amount: nat, ev: Evidence, nonce: nat, i: nat)
    requires SubmitFault(s, e, j, amount, ev, nonce).None? && i in s.book.policies
    ensures PaidOut(s, e, MSubmit(j, amount, ev, nonce), i)
            <= SatSub(s.book.policies[i].coverage, s.book.policies[i].totalClaimed)
  {
    hide PayoutOn, EvidenceFault;
    if ReviewedAtOnce(s, j) {
      PayoutWithinClaim(Submitted(s, e, j, amount), s.book.claimCount + 1, i);
    }
  }

  lemma OnlyApprovalsPay(s: State, e: Env, m: Message, i: nat)
    requires Handle(s, e, m).Ok? && !m.MSubmit?
    ensures PaidOut(s, e, m, i) == if ApprovedBy(s, e, m).Some? then PayoutOn(s, ApprovedBy(s, e, m).value, i) else 0
  {
    hide ProcessClaimInner, PayoutOn, HasRole;
    if !m.MProcess? && !m.MProcessInBatch? {
      hide Handle;
    }
  }

  lemma StepWithin(s: State, e: Env, m: Message, i: nat)
    requires Numbered(s.book) && i in s.book.policies
    ensures i in After(s, e, m).book.policies
    ensures if WithinCoverage(s, i) then WithinCoverage(After(s, e, m), i) <==> !Exceeds(s, e, m, i)
            else !WithinCoverage(After(s, e, m), i)
  {
    hide Handle, Numbered, PaidOut, PayoutOn, ApprovedBy, Sold, SubmitFault;
    HandleSteps(s, e, m);
    if Handle(s, e, m).Err? {
      if ApprovedBy(s, e, m).Some? {
        RefusedPaysNothing(s, e, m, i);
      }
    } else if m.MSubmit? {
      AcceptedSubmission(s, e, m);
      SubmissionFits(s, e, m.id, m.amount, m.evidence, m.nonce, i);
    } else {
      OnlyApprovalsPay(s, e, m, i);
    }
  }

  lemma AcceptedSubmission(s: State, e: Env, m: Message)
    requires m.MSubmit? && Handle(s, e, m).Ok?
    ensures ApprovedBy(s, e, m).None? && SubmitFault(s, e, m.id, m.amount, m.evidence, m.nonce).None?
  {
    hide SubmitFault, Insurance.ProcessClaim;
  }

  // ---------------------------------------------------------------------------------------
  // Every run
  // ---------------------------------------------------------------------------------------

  lemma PrefixNumbered(cfg: Config, calls: seq<Call>, k: nat)
    requires cfg.feeRate <= MAX_FEE_RATE && FitsAll(Run(cfg, calls).g) && k <= |calls|
    ensures Numbered(Run(cfg, calls[..k]).s.book)
  {
    hide Run, Inv, FitsAll, Numbered, Reconciled, Counted, Indexed, ClaimsSound;
    PrefixGood(cfg, calls, k);
  }

  /** A policy keeps its terms for the rest of the run. */
  lemma {:induction false} PolicyEvolves(cfg: Config, calls: seq<Call>, j: nat, k: nat, i: nat)
    requires cfg.feeRate <= MAX_FEE_RATE && FitsAll(Run(cfg, calls).g) && j <= k <= |calls|
    requires i in Run(cfg, calls[..j]).s.book.policies
    ensures i in Run(cfg, calls[..k]).s.book.policies
    ensures Evolves(Run(cfg, calls[..j]).s.book.policies[i], Run(cfg, calls[..k]).s.book.policies[i])
    decreases k
  {
    hide Run, FitsAll, Handle, Numbered, PaidOut, Sold;
    if j < k {
      PolicyEvolves(cfg, calls, j, k - 1, i);
      PrefixNumbered(cfg, calls, k - 1);
      PrefixStep(cfg, calls, k - 1);
      HandleSteps(Run(cfg, calls[..k - 1]).s, calls[k - 1].env, calls[k - 1].message);
    }
  }

  ghost predicate NeverExceeds(cfg: Config, calls: seq<Call>, k: nat, i: nat)
    requires k <= |calls|
  {
    forall j: nat | j < k :: !Exceeds(Run(cfg, calls[..j]).s, calls[j].env, calls[j].message, i)
  }

  lemma {:induction false} CoverageUpTo(cfg: Config, calls: seq<Call>, k: nat, i: nat)
    requires cfg.feeRate <= MAX_FEE_RATE && FitsAll(Run(cfg, calls).g) && k <= |calls|
    requires i in Run(cfg, calls[..k]).s.book.policies
    ensures WithinCoverage(Run(cfg, calls[..k]).s, i) <==> NeverExceeds(cfg, calls, k, i)
    decreases k
  {
    hide Run, FitsAll, Handle, Numbered, Exceeds, PaidOut, Evolves, After;
    if k == 0 {
      assert calls[..0] == [];
      EmptyRun(cfg);
    } else {
      var s, e, m := Run(cfg, calls[..k - 1]).s, calls[k - 1].env, calls[k - 1].message;
      PrefixNumbered(cfg, calls, k - 1);
      PrefixStep(cfg, calls, k - 1);
      if i in s.book.policies {
        CoverageUpTo(cfg, calls, k - 1, i);
        StepWithin(s, e, m, i);
      } else {
        forall j: nat | j < k ensures !Exceeds(Run(cfg, calls[..j]).s, calls[j].env, calls[j].message, i) {
          NotYetSold(cfg, calls, j, k - 1, i);
        }
        NewPolicyWithin(s, e, m, i);
      }
    }
  }

  lemma EmptyRun(cfg: Config)
    ensures Run(cfg, []).s.book.policies == map[] && Run(cfg, []).s.book.usedEvidence == {}
  {
  }

  lemma NotYetSold(cfg: Config, calls: seq<Call>, j: nat, k: nat, i: nat)
    requires cfg.feeRate <= MAX_FEE_RATE && FitsAll(Run(cfg, calls).g) && j <= k < |calls|
    requires i !in Run(cfg, calls[..k]).s.book.policies
    ensures !Exceeds(Run(cfg, calls[..j]).s, calls[j].env, calls[j].message, i)
  {
    hide Run, FitsAll, PayoutOn, ApprovedBy, Evolves;
    if i in Run(cfg, calls[..j]).s.book.policies {
      PolicyEvolves(cfg, calls, j, k, i);
    }
  }

  lemma NewPolicyWithin(s: State, e: Env, m: Message, i: nat)
    requires Numbered(s.book) && i !in s.book.policies && i in After(s, e, m).book.policies
    ensures WithinCoverage(After(s, e, m), i)
  {
    hide Handle, Numbered, PaidOut, Evolves;
    HandleSteps(s, e, m);
  }

  /** A policy ends a run within its coverage if and only if no approval of the run was given
      for more than was left at that moment. */
  lemma EveryRunStaysWithinCoverage(cfg: Config, calls: seq<Call>, i: nat)
    requires cfg.feeRate <= MAX_FEE_RATE && FitsAll(Run(cfg, calls).g) && i in Run(cfg, calls).s.book.policies
    ensures WithinCoverage(Run(cfg, calls).s, i) <==> NeverExceeds(cfg, calls, |calls|, i)
  {
    hide Run, FitsAll, NeverExceeds, WithinCoverage;
    assert calls[..|calls|] == calls;
    CoverageUpTo(cfg, calls, |calls|, i);
  }

  /** Every policy has a deductible, of at most two percent of its coverage. */
  lemma {:induction false} EveryRunSellsDeductibles(cfg: Config, calls: seq<Call>, k: nat, i: nat)
    requires cfg.feeRate <= MAX_FEE_RATE && FitsAll(Run(cfg, calls).g) && k <= |calls|
    requires i in Run(cfg, calls[..k]).s.book.policies
    ensures var policy := Run(cfg, calls[..k]).s.book.policies[i];
            0 < policy.deductible && 50 * policy.deductible <= policy.coverage
    decreases k
  {
    hide Run, FitsAll, Handle, Numbered, PaidOut;
    if k == 0 {
      assert calls[..0] == [];
      EmptyRun(cfg);
    } else {
      var s := Run(cfg, calls[..k - 1]).s;
      PrefixNumbered(cfg, calls, k - 1);
      PrefixStep(cfg, calls, k - 1);
      HandleSteps(s, calls[k - 1].env, calls[k - 1].message);
      if i in s.book.policies {
        EveryRunSellsDeductibles(cfg, calls, k - 1, i);
      }
    }
  }

  // ---------------------------------------------------------------------------------------
  // Renewal
  // ---------------------------------------------------------------------------------------

  /** Whoever calls, the policy takes no claim and cannot be cancelled or sold, and no scan
      expires it. */
  ghost predicate Stuck(s: State, i: nat) {
    && (forall e: Env, amount: nat, ev: Evidence, nonce: nat :: SubmitClaim(s, e, i, amount, ev, nonce).Err?)
    && (forall e: Env :: CancelPolicy(s, e, i).Err? && PurchaseToken(s, e, i).Err?)
    && (forall e: Env, maxScan: nat :: Scanned(s, e, maxScan, i) == ListedPolicy(s, i))
  }

  function ListedPolicy(s: State, i: nat): Option<Policy> {
    if i in s.book.policies then Some(s.book.policies[i]) else None
  }

  function Scanned(s: State, e: Env, maxScan: nat, i: nat): Option<Policy> {
    ListedPolicy(ExpirePolicies(s, e, maxScan).value.0, i)
  }

  predicate PastRenewal(s: State, i: nat) {
    i in s.book.policies && (s.book.policies[i].status == Renewed || s.book.policies[i].status == Claimed)
  }

  lemma RefusesClaims(s: State, e: Env, i: nat, amount: nat, ev: Evidence, nonce: nat)
    requires PastRenewal(s, i)
    ensures SubmitClaim(s, e, i, amount, ev, nonce).Err?
  {
    hide EvidenceFault;
  }

  lemma RefusesEnds(s: State, e: Env, i: nat)
    requires Numbered(s.book) && PastRenewal(s, i)
    ensures CancelPolicy(s, e, i).Err? && PurchaseToken(s, e, i).Err?
  {
    hide HasRole;
  }

  lemma ScanSkips(l: Liq, policies: Policies, count: nat, limit: nat, now: nat, i: nat)
    requires i in policies && policies[i].status != Active
    ensures var policies' := ExpireFrom(l, policies, 1, count, limit, now).1; i in policies' && policies'[i] == policies[i]
  {
    hide ExpireFrom;
    ExpireFromTouches(l, policies, 1, count, limit, now);
  }

  lemma RefusesScans(s: State, e: Env, maxScan: nat, i: nat)
    requires PastRenewal(s, i)
    ensures Scanned(s, e, maxScan, i) == ListedPolicy(s, i)
  {
    hide ExpireFrom;
    ScanSkips(s.liq, s.book.policies, s.book.policyCount, if maxScan == 0 then s.book.policyCount else maxScan, e.now, i);
  }

  lemma RenewedIsStuck(s: State, i: nat)
    requires Numbered(s.book) && PastRenewal(s, i)
    ensures Stuck(s, i)
  {
    hide Numbered, PastRenewal, SubmitClaim, CancelPolicy, PurchaseToken, Scanned, ListedPolicy;
    forall e: Env, amount: nat, ev: Evidence, nonce: nat ensures SubmitClaim(s, e, i, amount, ev, nonce).Err? {
      RefusesClaims(s, e, i, amount, ev, nonce);
    }
    forall e: Env ensures CancelPolicy(s, e, i).Err? && PurchaseToken(s, e, i).Err? {
      RefusesEnds(s, e, i);
    }
    forall e: Env, maxScan: nat ensures Scanned(s, e, maxScan, i) == ListedPolicy(s, i) {
      RefusesScans(s, e, maxScan, i);
    }
  }

  lemma OpenIsCounted(pools: Pools, policies: Policies, i: nat)
    requires Counted(pools, policies) && i in policies && policies[i].pool in pools && Open(policies[i])
    ensures pools[policies[i].pool].activePolicies >= 1
  {
    var p := policies[i].pool;
    SumTerm<nat, Policy>(policies, OpenIn(p));
    assert OpenIn(p)(i, policies[i]) <= SumBy<nat, Policy>(policies, OpenIn(p));
  }

  /** Renewal is a trap: in every continuation the policy keeps its holder and is renewed still,
      or used up by claims filed before, and it is stuck; while it is renewed, its pool counts
      it as active. */
  lemma RenewedIsATrap(cfg: Config, calls: seq<Call>, k: nat, i: nat)
    requires cfg.feeRate <= MAX_FEE_RATE && FitsAll(Run(cfg, calls).g) && k <= |calls|
    requires var policies := Run(cfg, calls[..k]).s.book.policies; i in policies && policies[i].status == Renewed
    ensures var s, policy := Run(cfg, calls).s, Run(cfg, calls[..k]).s.book.policies[i];
            && PastRenewal(s, i) && s.book.policies[i].holder == policy.holder
            && (s.book.policies[i].status == Renewed ==>
                  policy.pool in s.liq.pools && s.liq.pools[policy.pool].activePolicies >= 1)
            && Stuck(s, i)
  {
    hide Run, FitsAll, Inv, Numbered, Indexed, ClaimsSound, Stuck;
    assert calls[..|calls|] == calls;
    PolicyEvolves(cfg, calls, k, |calls|, i);
    PrefixGood(cfg, calls, |calls|);
    var s := Run(cfg, calls).s;
    if s.book.policies[i].status == Renewed {
      OpenIsCounted(s.liq.pools, s.book.policies, i);
    }
    RenewedIsStuck(s, i);
  }

  // ---------------------------------------------------------------------------------------
  // What acceptance means
  // ---------------------------------------------------------------------------------------

  /** A claim is accepted exactly when its policy is in force and has enough coverage left, the
      property and the caller are past their cooldowns, and neither the nonce nor the kind of
      evidence was used before. */
  lemma AcceptedClaim(s: State, e: Env, i: nat, amount: nat, ev: Evidence, nonce: nat)
    ensures SubmitFault(s, e, i, amount, ev, nonce).None? <==>
              && !s.cfg.paused && nonce == CountAt(s.book.nonces, e.caller)
              && EvidenceFault(ev).None? && (i, ev.kind) !in s.book.usedEvidence
              && i in s.book.policies
              && var policy := s.book.policies[i];
              && policy.holder == e.caller && policy.status == Active && e.now <= policy.endTime
              && 0 < amount && policy.totalClaimed + amount <= policy.coverage
              && (s.cfg.cooldown == 0
                  || (CountAt(s.book.lastPayout, policy.property) + s.cfg.cooldown <= e.now
                      && CountAt(s.book.lastClaim, e.caller) + s.cfg.cooldown <= e.now))
  {
    hide EvidenceFault;
  }

  /** An accepted application pays the premium of its risk, at least the minimum, and keeps the
      pool's exposure within its ratio of the capital, before and with the premium; when the
      products fit, this and the plain checks are also enough. */
  lemma AcceptedApplication(s: State, e: Env, property: nat, t: CoverageType, coverage: nat, p: nat, duration: nat,
                            event: Option<nat>)
    ensures ApplicationFault(s, e, property, t, coverage, p, duration, event).None? ==>
              Covered(s, e, property, t, coverage, p, duration, event)
    ensures Covered(s, e, property, t, coverage, p, duration, event)
            && s.liq.pools[p].totalCapital * s.liq.pools[p].maxCoverageRatio <= U128_MAX
            && (s.liq.pools[p].availableCapital + PremiumShare(s.cfg, e.value)) * s.liq.pools[p].maxCoverageRatio <= U128_MAX
            && s.liq.pools[p].availableCapital + PremiumShare(s.cfg, e.value) <= U128_MAX ==>
              ApplicationFault(s, e, property, t, coverage, p, duration, event).None?
  {
    hide AnnualPremium, PremiumShare, Deductible;
    if p in s.liq.pools && property in s.cfg.assessments {
      var q, share := s.liq.pools[p], PremiumShare(s.cfg, e.value);
      ExposureMeans(coverage, q.totalCapital, q.maxCoverageRatio);
      ExposureMeans(coverage, SatAdd(q.availableCapital, share), q.maxCoverageRatio);
      ProductOrdered(SatAdd(q.availableCapital, share), q.availableCapital + share, q.maxCoverageRatio);
      if AnnualPremium(coverage, s.cfg.assessments[property].score, t) >= MIN_PREMIUM {
        SoldWithDeductible(coverage, s.cfg.assessments[property].score, t);
      }
    }
  }

  ghost predicate Covered(s: State, e: Env, property: nat, t: CoverageType, coverage: nat, p: nat, duration: nat,
                          event: Option<nat>) {
    && event != Some(0) && !s.cfg.paused && property != 0 && coverage > 0 && duration > 0
    && p in s.liq.pools && s.liq.pools[p].isActive
    && property in s.cfg.assessments && e.now <= s.cfg.assessments[property].validUntil
    && var q, score := s.liq.pools[p], s.cfg.assessments[property].score;
    && coverage * BPS <= q.totalCapital * q.maxCoverageRatio
    && coverage * BPS <= (q.availableCapital + PremiumShare(s.cfg, e.value)) * q.maxCoverageRatio
    && MIN_PREMIUM <= AnnualPremium(coverage, score, t) <= e.value
    && Deductible(coverage, score) > 0
  }

  lemma ExposureMeans(coverage: nat, capital: nat, ratio: nat)
    ensures coverage <= Exposure(capital, ratio) ==> coverage * BPS <= capital * ratio
    ensures capital * ratio <= U128_MAX ==> (coverage <= Exposure(capital, ratio) <==> coverage * BPS <= capital * ratio)
  {
  }

  // ---------------------------------------------------------------------------------------
  // Evidence is used once
  // ---------------------------------------------------------------------------------------

  lemma InnerKeepsEvidence(s: State, e: Env, c: nat, approved: bool)
    ensures ProcessClaimInner(s, e, c, approved).0.book.usedEvidence == s.book.usedEvidence
  {
    hide Recovered, PayClaim, PayoutOf, Approval, Rejection;
    if approved && ReviewFault(s.book, c, approved).None? {
      var claim, payout := s.book.claims[c], PayoutOf(s.book, c);
      var p := s.book.policies[claim.policy].pool;
      if p in s.liq.pools {
        RecoveryWritesAgreements(SetClaim(s, c, Approval(claim, e, payout)), s.liq.pools[p], payout, e.now);
      }
    }
  }

  lemma SubmitKeepsEvidence(s: State, e: Env, i: nat, amount: nat, ev: Evidence, nonce: nat)
    requires SubmitClaim(s, e, i, amount, ev, nonce).Ok?
    ensures SubmitClaim(s, e, i, amount, ev, nonce).value.0.book.usedEvidence
            == s.book.usedEvidence + if ReviewedAtOnce(s, i) then {} else {(i, ev.kind)}
  {
    hide ProcessClaimInner, EvidenceFault, HasRole;
    InnerKeepsEvidence(Submitted(s, e, i, amount), e, s.book.claimCount + 1, true);
  }

  lemma OthersKeepEvidence(s: State, e: Env, m: Message)
    requires Handle(s, e, m).Ok? && !m.MSubmit? && !m.MProcess? && !m.MProcessInBatch?
    ensures Handle(s, e, m).value.0.book.usedEvidence == s.book.usedEvidence
  {
    hide Deposit, Withdraw, ClaimRewards, Reinvest, ClaimVested, CreatePool, ConfigureVesting, ExpireFrom, TakePremium,
         ApplicationFault, Fee, Deductible, EndIn, Accrued, HasRole, SubmitClaim, ProcessClaim, ProcessInBatch, Without;
  }

  lemma EvidenceStep(s: State, e: Env, m: Message)
    ensures s.book.usedEvidence <= After(s, e, m).book.usedEvidence
  {
    hide ProcessClaimInner, SubmitClaim, HasRole, Configure,
         CreateRiskPool, ConfigurePoolVesting, DepositLiquidity, CreatePolicy, RenewPolicy, CancelPolicy, ExpirePolicies,
         RegisterReinsurance, ListToken, PurchaseToken, Lift, Withdraw, ClaimRewards, Reinvest, ClaimVested;
    if Handle(s, e, m).Ok? {
      match m
      case MSubmit(i, amount, ev, nonce) => SubmitKeepsEvidence(s, e, i, amount, ev, nonce);
      case MProcess(c, approved) => InnerKeepsEvidence(s, e, c, approved);
      case MProcessInBatch(c, approved) => InnerKeepsEvidence(s, e, c, approved);
      case _ => OthersKeepEvidence(s, e, m);
    }
  }

  lemma {:induction false} EvidenceStays(cfg: Config, calls: seq<Call>, j: nat, k: nat)
    requires j <= k <= |calls|
    ensures Run(cfg, calls[..j]).s.book.usedEvidence <= Run(cfg, calls[..k]).s.book.usedEvidence
    decreases k
  {
    hide Run, After;
    if j < k {
      EvidenceStays(cfg, calls, j, k - 1);
      PrefixStep(cfg, calls, k - 1);
      EvidenceStep(Run(cfg, calls[..k - 1]).s, calls[k - 1].env, calls[k - 1].message);
    }
  }

  /** Once a submission went through the ordinary way, no later one with the same kind of
      evidence for the same policy is accepted, from anybody at any time. */
  lemma EvidenceIsUsedOnce(cfg: Config, calls: seq<Call>, k: nat)
    requires k < |calls| && calls[k].message.MSubmit?
    requires Handle(Run(cfg, calls[..k]).s, calls[k].env, calls[k].message).Ok?
    requires !ReviewedAtOnce(Run(cfg, calls[..k]).s, calls[k].message.id)
    ensures var s, m := Run(cfg, calls).s, calls[k].message;
            forall e: Env, amount: nat, ev: Evidence, nonce: nat | ev.kind == m.evidence.kind :: SubmitClaim(s, e, m.id, amount, ev, nonce).Err?
  {
    hide Run, SubmitClaim, EvidenceFault;
    var m := calls[k].message;
    assert calls[..|calls|] == calls;
    PrefixStep(cfg, calls, k);
    SubmitKeepsEvidence(Run(cfg, calls[..k]).s, calls[k].env, m.id, m.amount, m.evidence, m.nonce);
    EvidenceStays(cfg, calls, k + 1, |calls|);
    var s := Run(cfg, calls).s;
    forall e: Env, amount: nat, ev: Evidence, nonce: nat | ev.kind == m.evidence.kind
      ensures SubmitClaim(s, e, m.id, amount, ev, nonce).Err?
    {
      UsedEvidenceRefuses(s, e, m.id, amount, ev, nonce);
    }
  }

  lemma UsedEvidenceRefuses(s: State, e: Env, i: nat, amount: nat, ev: Evidence, nonce: nat)
    requires (i, ev.kind) in s.book.usedEvidence
    ensures SubmitClaim(s, e, i, amount, ev, nonce).Err?
  {
    hide EvidenceFault;
  }

  // ---------------------------------------------------------------------------------------
  // Claims reviewed at once use up nothing
  // ---------------------------------------------------------------------------------------

  /** The pool of claim `c` can pay it. */
  predicate Funded(s: State, c: nat)
    requires ReviewFault(s.book, c, true).None?
  {
    var p := s.book.policies[s.book.claims[c].policy].pool;
    p in s.liq.pools && PayoutOf(s.book, c) <= s.liq.pools[p].availableCapital
  }

  /** A review on its own succeeds exactly when the claim is open and pays nothing or is funded. */
  lemma ReviewOutcome(s: State, e: Env, c: nat)
    ensures ProcessClaimInner(s, e, c, true).1.Ok?
            <==> ReviewFault(s.book, c, true).None? && (PayoutOf(s.book, c) == 0 || Funded(s, c))
  {
    hide Recovered, PayOut, PayoutOf, Approval;
    if ReviewFault(s.book, c, true).None? {
      var p := s.book.policies[s.book.claims[c].policy].pool;
      if p in s.liq.pools {
        RecoveryTouchesOnly(SetClaim(s, c, Approval(s.book.claims[c], e, PayoutOf(s.book, c))), s.liq.pools[p], PayoutOf(s.book, c), e.now);
      }
    }
  }

  /** What a claim filed for `amount` on policy `i` pays. */
  function PayoutFor(s: State, i: nat, amount: nat): nat
    requires i in s.book.policies
  {
    SatSub(amount, s.book.policies[i].deductible)
  }

  lemma AtOnceOutcome(s: State, e: Env, i: nat, amount: nat, ev: Evidence, nonce: nat)
    requires ReviewedAtOnce(s, i)
    ensures var payout, p := PayoutFor(s, i, amount), s.book.policies[i].pool;
            SubmitClaim(s, e, i, amount, ev, nonce).Ok?
            <==> SubmitFault(s, e, i, amount, ev, nonce).None? && HasRole(s.cfg, e.caller, Assessor)
                 && (payout == 0 || (p in s.liq.pools && payout <= s.liq.pools[p].availableCapital))
  {
    hide ProcessClaimInner, EvidenceFault, HasRole;
    ReviewOutcome(Submitted(s, e, i, amount), e, s.book.claimCount + 1);
  }

  /** What a payout leaves of everything that a later submission is checked against. */
  ghost predicate PaysOnly(s: State, s': State, i: nat, amount: nat, now: nat)
    requires i in s.book.policies && s.book.policies[i].pool in s.liq.pools
  {
    var policy := s.book.policies[i];
    && s'.cfg == s.cfg && s'.book.nonces == s.book.nonces && s'.book.usedEvidence == s.book.usedEvidence
    && s'.book.lastClaim == s.book.lastClaim
    && s'.book.lastPayout == s.book.lastPayout[policy.property := now]
    && i in s'.book.policies
    && s'.book.policies[i] == policy.(totalClaimed := policy.totalClaimed + amount,
                                      status := if policy.totalClaimed + amount >= policy.coverage then Claimed else policy.status)
    && policy.pool in s'.liq.pools
    && s'.liq.pools[policy.pool].availableCapital == s.liq.pools[policy.pool].availableCapital - amount
  }

  lemma PaysNothingElse(s: State, c: nat, i: nat, amount: nat, now: nat)
    requires 0 < amount && i in s.book.policies && s.book.policies[i].pool in s.liq.pools
    requires amount <= s.liq.pools[s.book.policies[i].pool].availableCapital
    ensures PaysOnly(s, ExecutePayout(s, c, i, amount, now).0, i, amount, now)
  {
    hide Recovered;
    RecoveryWritesAgreements(s, s.liq.pools[s.book.policies[i].pool], amount, now);
  }

  /** What an accepted claim reviewed at once does to the checks on the next one. */
  lemma AtOnceLeaves(s: State, e: Env, i: nat, amount: nat, ev: Evidence, nonce: nat)
    requires ReviewedAtOnce(s, i) && SubmitClaim(s, e, i, amount, ev, nonce).Ok?
    ensures var s', s1, payout := SubmitClaim(s, e, i, amount, ev, nonce).value.0, Submitted(s, e, i, amount), PayoutFor(s, i, amount);
            && s'.cfg == s.cfg && s'.book.nonces == s.book.nonces && s'.book.usedEvidence == s.book.usedEvidence
            && s'.book.lastClaim == s.book.lastClaim && i in s'.book.policies
            && (payout == 0 ==> s'.liq == s.liq && s'.book.lastPayout == s.book.lastPayout && s'.book.policies == s1.book.policies)
            && (payout > 0 ==> s.book.policies[i].pool in s.liq.pools && PaysOnly(s1, s', i, payout, e.now))
  {
    hide ExecutePayout, EvidenceFault, HasRole, PaysOnly;
    AtOnceOutcome(s, e, i, amount, ev, nonce);
    var s1, c := Submitted(s, e, i, amount), s.book.claimCount + 1;
    var approved := SetClaim(s1, c, Approval(s1.book.claims[c], e, PayoutFor(s, i, amount)));
    if PayoutFor(s, i, amount) > 0 {
      PaysNothingElse(approved, c, i, PayoutFor(s, i, amount), e.now);
      SamePays(s1, approved, ExecutePayout(approved, c, i, PayoutFor(s, i, amount), e.now).0, i, PayoutFor(s, i, amount), e.now);
    } else {
      PaysNothing(approved, c, i, e.now);
    }
  }

  lemma PaysNothing(s: State, c: nat, i: nat, now: nat)
    ensures ExecutePayout(s, c, i, 0, now) == (s, Ok(Done(c)))
  {
  }

  lemma SamePays(s: State, s1: State, s': State, i: nat, amount: nat, now: nat)
    requires s1 == s.(book := s.book.(claims := s1.book.claims))
    requires i in s.book.policies && s.book.policies[i].pool in s.liq.pools && PaysOnly(s1, s', i, amount, now)
    ensures PaysOnly(s, s', i, amount, now)
  {
  }

  /** Evidence is not used up by a claim reviewed at once: after one is accepted, the same
      submission, nonce and evidence included, is accepted again at any later time, if and only
      if its amount is still covered after the payout, the policy has not run out, the payout
      is past the property's cooldown, and the pool can pay once more. */
  lemma ParametricReplay(s: State, e: Env, i: nat, amount: nat, ev: Evidence, nonce: nat, later: nat)
    requires ReviewedAtOnce(s, i) && SubmitClaim(s, e, i, amount, ev, nonce).Ok? && e.now <= later
    ensures var s', policy, payout := SubmitClaim(s, e, i, amount, ev, nonce).value.0, s.book.policies[i], PayoutFor(s, i, amount);
            && (SubmitFault(s', e.(now := later), i, amount, ev, nonce).None?
                <==> policy.totalClaimed + payout + amount <= policy.coverage && later <= policy.endTime
                     && (s.cfg.cooldown == 0 || payout == 0 || e.now + s.cfg.cooldown <= later))
            && (SubmitClaim(s', e.(now := later), i, amount, ev, nonce).Ok?
                <==> SubmitFault(s', e.(now := later), i, amount, ev, nonce).None?
                     && (payout == 0 || 2 * payout <= s.liq.pools[policy.pool].availableCapital))
  {
    hide SubmitClaim, SubmitFault, EvidenceFault, HasRole, FileClaim;
    var s' := SubmitClaim(s, e, i, amount, ev, nonce).value.0;
    AtOnceOutcome(s, e, i, amount, ev, nonce);
    AtOnceLeaves(s, e, i, amount, ev, nonce);
    AcceptedClaim(s, e, i, amount, ev, nonce);
    FilingSteps(s, e, i, amount);
    FilingKeepsStatus(s, e, i, amount);
    AcceptedClaim(s', e.(now := later), i, amount, ev, nonce);
    AtOnceOutcome(s', e.(now := later), i, amount, ev, nonce);
  }

  lemma FilingKeepsStatus(s: State, e: Env, i: nat, amount: nat)
    requires i in s.book.policies
    ensures var s1 := Submitted(s, e, i, amount);
            s1.liq == s.liq && s1.book.lastPayout == s.book.lastPayout && i in s1.book.policies
  {
  }
}
