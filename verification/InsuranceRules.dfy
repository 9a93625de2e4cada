/** What the policy, claim, reinsurance and market messages of the insurance contract ask and do. */
module InsuranceRules {
  import opened Common
  import opened Liquidity
  import opened Solvency
  import opened Insurance
  import opened InsuranceBook
  import opened InsuranceRuns
  import opened InsuranceTheorems
  import opened InsurancePolicies

  /** Roles are held one by one, except that an admin may do whatever the others may. */
  lemma RolesMean(cfg: Config, a: Address)
    ensures HasRole(cfg, a, Admin) <==> (a, Admin) in cfg.roles
    ensures forall role: Role | role != Admin :: HasRole(cfg, a, role) <==> (a, role) in cfg.roles || (a, Admin) in cfg.roles
  {
  }

  /** Any configuration with a fee of at most ten percent can be installed; it replaces the old one
      and nothing else. Setting up pools and their schedules takes the admin, and depositing an
      unpaused contract; beyond that they do what the liquidity side says. */
  lemma AccessRule(s: State, e: Env, cfg: Config, named: bool, p: nat, x: nat, y: nat, z: nat)
    ensures Configure(s, cfg).Ok? <==> cfg.feeRate <= 1_000
    ensures Configure(s, cfg).Ok? ==> Configure(s, cfg) == Ok((s.(cfg := cfg), Done(0)))
    ensures CreateRiskPool(s, e, named, x, y).Ok? <==> (e.caller, Admin) in s.cfg.roles && CreatePool(s.liq, named, x, y).Ok?
    ensures ConfigurePoolVesting(s, e, p, x, y, z).Ok?
            <==> (e.caller, Admin) in s.cfg.roles && ConfigureVesting(s.liq, p, x, y, z).Ok?
    ensures DepositLiquidity(s, e, p).Ok? <==> !s.cfg.paused && Deposit(s.liq, p, e.caller, e.value, e.now).Ok?
    ensures Lifts(s, CreateRiskPool(s, e, named, x, y), CreatePool(s.liq, named, x, y))
    ensures Lifts(s, ConfigurePoolVesting(s, e, p, x, y, z), ConfigureVesting(s.liq, p, x, y, z))
    ensures Lifts(s, DepositLiquidity(s, e, p), Deposit(s.liq, p, e.caller, e.value, e.now))
  {
    hide Deposit, CreatePool, ConfigureVesting;
  }

  ghost predicate Lifts(s: State, answer: Answer, reply: Reply) {
    answer.Ok? ==> reply.Ok? && answer.value == (s.(liq := reply.value.0), reply.value.1)
  }

  // ---------------------------------------------------------------------------------------
  // Prices
  // ---------------------------------------------------------------------------------------

  /** Risk in percent, by score. */
  function RiskPercent(score: nat): nat {
    if score > 80 then 80 else if score > 60 then 110 else if score > 40 then 150 else if score > 20 then 250 else 400
  }

  /** Kind of coverage in percent. */
  function KindPercent(t: CoverageType): nat {
    match t
    case Fire => 100
    case Theft => 80
    case Flood => 150
    case Earthquake => 200
    case LiabilityDamage => 120
    case NaturalDisaster => 180
    case Comprehensive => 250
  }

  /** With room for the products: premium and deductible in plain arithmetic, from the coverage and
      from risk and kind in percent, and a payment split into the fee, at its rate in basis points,
      and the pool's share. */
  lemma PriceRule(cfg: Config, coverage: nat, score: nat, t: CoverageType, paid: nat)
    requires coverage * 15_000_000 <= U128_MAX && paid * cfg.feeRate <= U128_MAX && cfg.feeRate <= MAX_FEE_RATE
    ensures AnnualPremium(coverage, score, t) == coverage * 150 * RiskPercent(score) * KindPercent(t) / 1_000_000_000_000
    ensures Deductible(coverage, score) == coverage * 500 * RiskPercent(score) / 10_000_000
    ensures Fee(paid, cfg.feeRate) == paid * cfg.feeRate / 10_000
    ensures PremiumShare(cfg, paid) == paid - paid * cfg.feeRate / 10_000
  {
    hide AnnualPremium, Deductible, SatMul, RiskPercent, KindPercent;
    FeeWithin(paid, cfg.feeRate);
    PremiumIs(coverage, score, t);
    DeductibleIs(coverage, score);
    Exact(paid, cfg.feeRate);
  }

  lemma RisksAgree(score: nat, t: CoverageType)
    ensures RiskMultiplier(score) == RiskPercent(score) <= 400
    ensures CoverageMultiplier(t) == KindPercent(t) <= 250
  {
  }

  lemma PremiumIs(coverage: nat, score: nat, t: CoverageType)
    requires coverage * 15_000_000 <= U128_MAX
    ensures AnnualPremium(coverage, score, t) == coverage * 150 * RiskPercent(score) * KindPercent(t) / 1_000_000_000_000
  {
    hide SatMul, RiskPercent, KindPercent, RiskMultiplier, CoverageMultiplier;
    RisksAgree(score, t);
    var risk, kind := RiskPercent(score), KindPercent(t);
    ProductOrdered(risk, 400, coverage * 150);
    ProductOrdered(coverage * 150 * risk, coverage * 60_000, kind);
    ProductOrdered(kind, 250, coverage * 60_000);
    Exact(coverage, 150);
    Exact(coverage * 150, risk);
    Exact(coverage * 150 * risk, kind);
  }

  lemma DeductibleIs(coverage: nat, score: nat)
    requires coverage * 15_000_000 <= U128_MAX
    ensures Deductible(coverage, score) == coverage * 500 * RiskPercent(score) / 10_000_000
  {
    hide SatMul, RiskPercent, RiskMultiplier;
    RisksAgree(score, Fire);
    ProductOrdered(RiskPercent(score), 400, coverage * 500);
    Exact(coverage, 500);
    Exact(coverage * 500, RiskPercent(score));
  }

  lemma Exact(x: nat, y: nat)
    ensures x * y <= U128_MAX ==> SatMul(x, y) == x * y
  {
  }

  // ---------------------------------------------------------------------------------------
  // Policies
  // ---------------------------------------------------------------------------------------

  /** An accepted application, which AcceptedApplication characterises, issues one policy under the
      next number on the terms asked for: to the caller, for the payment made, from now for as long
      as asked, with the deductible of its risk. One token of the same face value goes with it,
      and the pool has one policy and one premium share more. */
  lemma IssuingRule(s: State, e: Env, property: nat, t: CoverageType, coverage: nat, p: nat, duration: nat, event: Option<nat>)
    requires Numbered(s.book) && CreatePolicy(s, e, property, t, coverage, p, duration, event).Ok?
    ensures p in s.liq.pools && property in s.cfg.assessments
    ensures var (s', r), id := CreatePolicy(s, e, property, t, coverage, p, duration, event).value, s.book.policyCount + 1;
            && s'.cfg == s.cfg && s'.liq == s.liq.(pools := s'.liq.pools)
            && s'.liq.pools == s.liq.pools[p := TakePremium(s.liq.pools[p].(activePolicies := s.liq.pools[p].activePolicies + 1),
                                                            PremiumShare(s.cfg, e.value))]
            && s'.book.policyCount == s'.book.tokenCount == id && id !in s.book.policies
            && s'.book.policies.Keys == s.book.policies.Keys + {id} && s'.book.tokens.Keys == s.book.tokens.Keys + {id}
            && (forall i: nat | i in s.book.policies :: s'.book.policies[i] == s.book.policies[i])
            && (forall i: nat | i in s.book.tokens :: s'.book.tokens[i] == s.book.tokens[i])
            && s'.book.platformFees == s.book.platformFees + Fee(e.value, s.cfg.feeRate)
            && s'.book == s.book.(policyCount := id, policies := s'.book.policies, holderPolicies := s'.book.holderPolicies,
                                  propertyPolicies := s'.book.propertyPolicies, tokenCount := id, tokens := s'.book.tokens,
                                  platformFees := s'.book.platformFees)
    ensures var (s', r), id := CreatePolicy(s, e, property, t, coverage, p, duration, event).value, s.book.policyCount + 1;
            var policy := s'.book.policies[id];
            && r == PremiumTaken(p, id, PremiumShare(s.cfg, e.value), Accrued(s.liq.pools[p], PremiumShare(s.cfg, e.value)))
            && policy.property == property && policy.holder == e.caller && policy.coverage == coverage
            && policy.premium == e.value && policy.deductible == Deductible(coverage, s.cfg.assessments[property].score)
            && (e.now + duration <= U64_MAX ==> policy.endTime == e.now + duration)
            && policy.status == Active && policy.pool == p && policy.claimsCount == policy.totalClaimed == 0
            && policy.event == event
            && s'.book.tokens[id] == Token(id, e.caller, coverage, true, None)
  {
    hide AnnualPremium, Exposure, SatAdd, SatSub, Fee, TakePremium, Accrued, Deductible;
  }

  /** The holder of a policy in force renews it for any payment, for at least one second: it ends
      that much later, its premium counts the payment, and the pool takes its share. No other
      policy changes, and nothing else of this one. */
  lemma RenewalRule(s: State, e: Env, id: nat, duration: nat)
    ensures RenewPolicy(s, e, id, duration).Ok?
            <==> && duration > 0 && e.value > 0 && id in s.book.policies && s.book.policies[id].holder == e.caller
                 && (s.book.policies[id].status == Active || s.book.policies[id].status == Renewed)
                 && s.book.policies[id].pool in s.liq.pools
    ensures RenewPolicy(s, e, id, duration).Ok? ==>
              var (s', r), policy := RenewPolicy(s, e, id, duration).value, s.book.policies[id];
              var q, share := s.liq.pools[policy.pool], PremiumShare(s.cfg, e.value);
              && r == PremiumTaken(policy.pool, id, share, Accrued(q, share))
              && OnlyPolicy(s, s', id) && s'.liq == s.liq.(pools := s.liq.pools[policy.pool := TakePremium(q, share)])
              && var policy' := s'.book.policies[id];
              && (policy.endTime + duration <= U64_MAX ==> policy'.endTime == policy.endTime + duration)
              && (policy.endTime + duration > U64_MAX ==> policy'.endTime == U64_MAX)
              && (policy.premium + e.value <= U128_MAX ==> policy'.premium == policy.premium + e.value)
              && policy' == policy.(endTime := policy'.endTime, premium := policy'.premium, status := Renewed)
  {
    hide TakePremium, Fee, Accrued;
  }

  /** Only policy `id` is rewritten in the book. */
  ghost predicate OnlyPolicy(s: State, s': State, id: nat) {
    && s'.cfg == s.cfg && s'.book == s.book.(policies := s'.book.policies)
    && s'.book.policies.Keys == s.book.policies.Keys && id in s.book.policies
    && (forall i: nat | i in s.book.policies && i != id :: s'.book.policies[i] == s.book.policies[i])
  }

  /** The holder or an admin cancels a policy that is active, and its pool has one policy less. */
  lemma CancellationRule(s: State, e: Env, id: nat)
    requires id in s.book.policies ==> s.book.policies[id].pool in s.liq.pools && s.liq.pools[s.book.policies[id].pool].activePolicies > 0
    ensures CancelPolicy(s, e, id).Ok?
            <==> && id in s.book.policies && s.book.policies[id].status == Active
                 && (s.book.policies[id].holder == e.caller || (e.caller, Admin) in s.cfg.roles)
    ensures CancelPolicy(s, e, id).Ok? ==>
              var (s', r), p := CancelPolicy(s, e, id).value, s.book.policies[id].pool;
              && r == Done(id) && OnlyPolicy(s, s', id)
              && s'.book.policies[id] == s.book.policies[id].(status := Cancelled)
              && s'.liq == s.liq.(pools := s.liq.pools[p := s.liq.pools[p].(activePolicies := s.liq.pools[p].activePolicies - 1)])
  {
  }

  /** What a pool counts as active beyond the policies that are open. */
  ghost function Slack(pools: Pools, policies: Policies, p: nat): int
    requires p in pools
  {
    pools[p].activePolicies - SumBy<nat, Policy>(policies, OpenIn(p))
  }

  ghost predicate SameButCounters(pools: Pools, pools': Pools) {
    && pools'.Keys == pools.Keys
    && (forall p: nat | p in pools :: pools'[p] == pools[p].(activePolicies := pools'[p].activePolicies))
  }

  lemma EndsOne(l: Liq, policies: Policies, i: nat)
    requires Counted(l.pools, policies) && i in policies && policies[i].status == Active && policies[i].pool in l.pools
    ensures var l', policies' := EndIn(l, policies[i].pool), policies[i := policies[i].(status := Expired)];
            && l' == l.(pools := l'.pools) && SameButCounters(l.pools, l'.pools) && Counted(l'.pools, policies')
            && (forall p: nat | p in l.pools :: Slack(l'.pools, policies', p) == Slack(l.pools, policies, p))
  {
    var l', policies' := EndIn(l, policies[i].pool), policies[i := policies[i].(status := Expired)];
    OpenIsCounted(l.pools, policies, i);
    forall p: nat | p in l.pools
      ensures Slack(l'.pools, policies', p) == Slack(l.pools, policies, p)
    {
      SumInsert<nat, Policy>(policies, i, policies[i].(status := Expired), OpenIn(p));
    }
  }

  lemma {:induction false} ScanCounts(l: Liq, policies: Policies, i: nat, count: nat, left: nat, now: nat)
    requires Counted(l.pools, policies) && forall j: nat | j in policies :: policies[j].pool in l.pools
    ensures var (l', policies', _) := ExpireFrom(l, policies, i, count, left, now);
            && l' == l.(pools := l'.pools) && SameButCounters(l.pools, l'.pools)
            && (forall p: nat | p in l.pools :: Slack(l'.pools, policies', p) == Slack(l.pools, policies, p))
    decreases count + 1 - i
  {
    hide Slack, EndIn, Counted;
    if i <= count && left > 0 {
      if i in policies && Overdue(policies[i], now) {
        EndsOne(l, policies, i);
        ScanCounts(EndIn(l, policies[i].pool), policies[i := policies[i].(status := Expired)], i + 1, count, left - 1, now);
      } else {
        ScanCounts(l, policies, i + 1, count, left, now);
      }
    }
  }

  /** An expiry scan ends active policies strictly after their end and no others, and without a limit
      all of them. */
  lemma OverdueRule(s: State, e: Env, maxScan: nat)
    requires Numbered(s.book)
    ensures var s' := ExpirePolicies(s, e, maxScan).value.0;
            && s'.book.policies.Keys == s.book.policies.Keys
            && (forall i: nat | i in s.book.policies && s'.book.policies[i] != s.book.policies[i] ::
                  && s.book.policies[i].status == Active && s.book.policies[i].endTime < e.now
                  && s'.book.policies[i] == s.book.policies[i].(status := PolicyStatus.Expired))
            && (maxScan == 0 ==>
                  forall i: nat | i in s'.book.policies && s'.book.policies[i].status == Active :: e.now <= s'.book.policies[i].endTime)
  {
    hide ExpireFrom, Numbered, SumBy;
    ExpireIsComplete(s, e, maxScan);
    var s' := ExpirePolicies(s, e, maxScan).value.0;
    forall i: nat | maxScan == 0 && i in s'.book.policies && s'.book.policies[i].status == Active
      ensures e.now <= s'.book.policies[i].endTime
    {
      assert !Overdue(s'.book.policies[i], e.now);
    }
  }

  /** An expiry scan takes off each pool's counter exactly the policies it ends there, and changes
      nothing else of the pools, nor anything but policies in the book. */
  lemma ExpiryRule(s: State, g: Ledger, e: Env, maxScan: nat)
    requires Good(s, g)
    ensures var s' := ExpirePolicies(s, e, maxScan).value.0;
            && s'.cfg == s.cfg && s'.book == s.book.(policies := s'.book.policies) && s'.liq == s.liq.(pools := s'.liq.pools)
            && SameButCounters(s.liq.pools, s'.liq.pools)
            && (forall p: nat | p in s.liq.pools ::
                  s.liq.pools[p].activePolicies - s'.liq.pools[p].activePolicies
                  == SumBy<nat, Policy>(s.book.policies, OpenIn(p)) - SumBy<nat, Policy>(s'.book.policies, OpenIn(p)))
  {
    hide Inv, Counted, Numbered, Indexed, ClaimsSound, ExpireFrom;
    var limit := if maxScan == 0 then s.book.policyCount else maxScan;
    ScanCounts(s.liq, s.book.policies, 1, s.book.policyCount, limit, e.now);
    var s' := ExpirePolicies(s, e, maxScan).value.0;
    forall p: nat | p in s.liq.pools
      ensures s.liq.pools[p].activePolicies - s'.liq.pools[p].activePolicies
              == SumBy<nat, Policy>(s.book.policies, OpenIn(p)) - SumBy<nat, Policy>(s'.book.policies, OpenIn(p))
    {
      assert Slack(s'.liq.pools, s'.book.policies, p) == Slack(s.liq.pools, s.book.policies, p);
    }
  }

  // ---------------------------------------------------------------------------------------
  // Claims
  // ---------------------------------------------------------------------------------------

  /** A claim that AcceptedClaim admits and that is not reviewed at once is filed under the next
      number, pending, for its claimant; it uses up nonce and evidence and starts the caller's
      cooldown. Nothing is paid. */
  lemma FilingRule(s: State, e: Env, i: nat, amount: nat, ev: Evidence, nonce: nat)
    requires Numbered(s.book) && !ReviewedAtOnce(s, i)
    ensures SubmitClaim(s, e, i, amount, ev, nonce).Ok? <==> SubmitFault(s, e, i, amount, ev, nonce).None?
    ensures SubmitClaim(s, e, i, amount, ev, nonce).Ok? ==>
              var (s', r), c := SubmitClaim(s, e, i, amount, ev, nonce).value, s.book.claimCount + 1;
              && r == Done(c) && s'.liq == s.liq && s'.cfg == s.cfg && i in s.book.policies
              && c !in s.book.claims && s'.book.claimCount == c && s'.book.claims.Keys == s.book.claims.Keys + {c}
              && (forall d: nat | d in s.book.claims :: s'.book.claims[d] == s.book.claims[d])
              && s'.book.claims[c] == Claim(i, e.caller, amount, Pending, e.now, None, 0, None)
              && CountAt(s'.book.nonces, e.caller) == CountAt(s.book.nonces, e.caller) + 1
              && CountAt(s'.book.lastClaim, e.caller) == e.now
              && (forall a: Address | a != e.caller ::
                    && CountAt(s'.book.nonces, a) == CountAt(s.book.nonces, a)
                    && CountAt(s'.book.lastClaim, a) == CountAt(s.book.lastClaim, a))
              && s'.book.usedEvidence == s.book.usedEvidence + {(i, ev.kind)}
              && s'.book.policies == s.book.policies[i := s.book.policies[i].(claimsCount := s.book.policies[i].claimsCount + 1)]
              && s'.book == s.book.(claims := s'.book.claims, claimCount := c, policyClaims := s'.book.policyClaims,
                                    policies := s'.book.policies, nonces := s'.book.nonces,
                                    lastClaim := s'.book.lastClaim, usedEvidence := s'.book.usedEvidence)
  {
    hide EvidenceFault, Insurance.ProcessClaim;
    SubmitNonce(s, e, i, amount, ev, nonce);
  }

  lemma SubmitNonce(s: State, e: Env, i: nat, amount: nat, ev: Evidence, nonce: nat)
    ensures SubmitFault(s, e, i, amount, ev, nonce).None? ==> nonce == CountAt(s.book.nonces, e.caller) && i in s.book.policies
  {
    hide EvidenceFault;
  }

  /** Evidence names its kind, points to ipfs or https, and carries a hash of 32 bytes. */
  lemma EvidenceMeans(ev: Evidence)
    ensures EvidenceFault(ev).None?
            <==> |ev.kind| > 0 && ("ipfs://" <= ev.uri || "https://" <= ev.uri) && ev.hashLength == 32
  {
  }

  /** Open for review: pending or under review, and on record. */
  predicate OpenForReview(b: Book, c: nat) {
    c in b.claims && (b.claims[c].status == Pending || b.claims[c].status == UnderReview)
  }

  /** Assessors and admins, and nobody else, reject an open claim, in an unpaused contract or in a
      batch. The claim is then rejected, by the caller and now; no policy, pool, agreement or
      other claim changes, and nothing is paid. */
  lemma RejectionRule(s: State, e: Env, c: nat)
    ensures ProcessClaim(s, e, c, false).Ok?
            <==> !s.cfg.paused && ((e.caller, Assessor) in s.cfg.roles || (e.caller, Admin) in s.cfg.roles) && OpenForReview(s.book, c)
    ensures ((e.caller, Assessor) in s.cfg.roles || (e.caller, Admin) in s.cfg.roles) && OpenForReview(s.book, c) ==>
              && ProcessInBatch(s, e, c, false).Ok? && Rejects(s, e, c, ProcessInBatch(s, e, c, false).value)
    ensures ProcessClaim(s, e, c, false).Ok? ==> Rejects(s, e, c, ProcessClaim(s, e, c, false).value)
  {
  }

  ghost predicate Rejects(s: State, e: Env, c: nat, answer: (State, Receipt)) {
    var (s', r) := answer;
    && r == Done(c) && s' == s.(book := s.book.(claims := s'.book.claims))
    && s'.book.claims.Keys == s.book.claims.Keys && c in s.book.claims
    && (forall d: nat | d in s.book.claims && d != c :: s'.book.claims[d] == s.book.claims[d])
    && s'.book.claims[c].status == ClaimStatus.Rejected
    && s'.book.claims[c].assessor == Some(e.caller) && s'.book.claims[c].processedAt == Some(e.now)
    && s'.book.claims[c] == s.book.claims[c].(status := s'.book.claims[c].status, assessor := s'.book.claims[c].assessor,
                                              processedAt := s'.book.claims[c].processedAt)
  }

  /** Approving takes an assessor or an admin and an open claim; a batch reports anything else as
      nothing done. */
  lemma ApprovalAccess(s: State, e: Env, c: nat)
    requires OpenForReview(s.book, c) ==> s.book.claims[c].policy in s.book.policies
    ensures var mayReview := (e.caller, Assessor) in s.cfg.roles || (e.caller, Admin) in s.cfg.roles;
            && (ProcessClaim(s, e, c, true).Ok? ==> !s.cfg.paused && mayReview && OpenForReview(s.book, c))
            && (ProcessInBatch(s, e, c, true).Ok? <==> mayReview)
            && (mayReview && !OpenForReview(s.book, c) ==> ProcessInBatch(s, e, c, true) == Ok((s, Done(0))))
  {
    hide ApproveAndPay;
  }

  /** The amount claimed less the deductible. */
  function PayoutDue(b: Book, c: nat): nat
    requires c in b.claims && b.claims[c].policy in b.policies
  {
    var claim := b.claims[c];
    if claim.amount > b.policies[claim.policy].deductible then claim.amount - b.policies[claim.policy].deductible else 0
  }

  /** A payout is added to its policy, which it may use up, and starts the property's cooldown; it is
      what the pool is reported to pay. A payout of nothing changes nothing. */
  ghost predicate PaysOut(s: State, s': State, r: Receipt, c: nat, i: nat, payout: nat, now: nat)
    requires i in s.book.policies
  {
    var policy := s.book.policies[i];
    && s'.cfg == s.cfg
    && r == (if payout > 0 then ClaimPaid(policy.pool, payout) else Done(c))
    && (payout > 0 ==>
          && s'.book.lastPayout == s.book.lastPayout[policy.property := now]
          && s'.book.policies == s.book.policies[i := policy.(
               totalClaimed := policy.totalClaimed + payout,
               status := if policy.coverage <= policy.totalClaimed + payout then Claimed else policy.status)])
    && (payout == 0 ==> s'.book.policies == s.book.policies && s'.book.lastPayout == s.book.lastPayout && s'.liq == s.liq)
  }

  lemma PayoutRule(s: State, c: nat, i: nat, payout: nat, now: nat)
    requires i in s.book.policies && s.book.policies[i].pool in s.liq.pools && c in s.book.claims
    ensures var (s', r) := ExecutePayout(s, c, i, payout, now);
            r.Ok? ==>
              && PaysOut(s, s', r.value, c, i, payout, now)
              && s'.book.claims == s.book.claims[c := s.book.claims[c].(status := s'.book.claims[c].status)]
  {
    hide Recovered, PayOut;
    var q := s.liq.pools[s.book.policies[i].pool];
    RecoveryWritesAgreements(s, q, payout, now);
    if payout > 0 {
      hide PaysOut;
      PayOutPays(s, Recovered(s, q, payout, now), c, i, payout, now);
    }
  }

  lemma PayOutPays(s: State, s1: State, c: nat, i: nat, payout: nat, now: nat)
    requires i in s.book.policies && s.book.policies[i].pool in s.liq.pools && c in s.book.claims && payout > 0
    requires s1 == s.(book := s.book.(agreements := s1.book.agreements))
    ensures var s' := PayOut(s1, c, i, payout, now);
            && PaysOut(s, s', ClaimPaid(s.book.policies[i].pool, payout), c, i, payout, now)
            && s'.book.claims == s.book.claims[c := s.book.claims[c].(status := s'.book.claims[c].status)]
  {
    hide PayClaim;
  }

  /** An approval records its assessor, its time and the payout due, and pays it out. */
  lemma ApprovalRule(s: State, e: Env, c: nat)
    requires ProcessClaim(s, e, c, true).Ok? && s.book.claims[c].policy in s.book.policies
    requires s.book.policies[s.book.claims[c].policy].pool in s.liq.pools
    ensures var (s', r), claim, payout := ProcessClaim(s, e, c, true).value, s.book.claims[c], PayoutDue(s.book, c);
            && PaysOut(s, s', r, c, claim.policy, payout, e.now)
            && s'.book.claims.Keys == s.book.claims.Keys
            && (forall d: nat | d in s.book.claims && d != c :: s'.book.claims[d] == s.book.claims[d])
            && s'.book.claims[c] == claim.(status := s'.book.claims[c].status, payout := payout, assessor := Some(e.caller),
                                           processedAt := Some(e.now))
  {
    hide ExecutePayout;
    var claim, payout := s.book.claims[c], PayoutOf(s.book, c);
    PayoutRule(SetClaim(s, c, Approval(claim, e, payout)), c, claim.policy, payout, e.now);
  }

  lemma ClaimStays(s: State, e: Env, m: Message, c: nat)
    requires Numbered(s.book) && c in s.book.claims && s.book.claims[c].status == ClaimStatus.Rejected
    ensures var b := After(s, e, m).book; c in b.claims && b.claims[c] == s.book.claims[c]
  {
    hide Handle, Numbered;
    if Handle(s, e, m).Ok? {
      DecisionsAreFinal(s, e, m, c);
    }
  }

  lemma {:induction false} RejectedStays(cfg: Config, calls: seq<Call>, j: nat, k: nat, c: nat)
    requires cfg.feeRate <= MAX_FEE_RATE && FitsAll(Run(cfg, calls).g) && j <= k <= |calls|
    requires var b := Run(cfg, calls[..j]).s.book; c in b.claims && b.claims[c].status == ClaimStatus.Rejected
    ensures var b, b' := Run(cfg, calls[..j]).s.book, Run(cfg, calls[..k]).s.book;
            c in b'.claims && b'.claims[c] == b.claims[c]
    decreases k
  {
    hide Run, FitsAll, After, Numbered;
    if j < k {
      RejectedStays(cfg, calls, j, k - 1, c);
      PrefixNumbered(cfg, calls, k - 1);
      PrefixStep(cfg, calls, k - 1);
      ClaimStays(Run(cfg, calls[..k - 1]).s, calls[k - 1].env, calls[k - 1].message, c);
    }
  }

  /** Once an assessor rejected a claim it stays rejected in every continuation: no review of it is
      accepted from anybody at any time, a batch passes over it, and it is never paid. */
  lemma RejectionIsFinal(cfg: Config, calls: seq<Call>, k: nat)
    requires cfg.feeRate <= MAX_FEE_RATE && FitsAll(Run(cfg, calls).g) && k < |calls|
    requires var m := calls[k].message; (m.MProcess? || m.MProcessInBatch?) && !m.approved
    requires var s, m := Run(cfg, calls[..k]).s, calls[k].message;
             Handle(s, calls[k].env, m).Ok? && OpenForReview(s.book, m.id)
    ensures var s, c := Run(cfg, calls).s, calls[k].message.id;
            && c in s.book.claims && s.book.claims[c].status == ClaimStatus.Rejected
            && s.book.claims[c].assessor == Some(calls[k].env.caller)
            && (forall e: Env, approved: bool :: ProcessClaim(s, e, c, approved).Err?)
            && (forall e: Env, approved: bool | ProcessInBatch(s, e, c, approved).Ok? ::
                  ProcessInBatch(s, e, c, approved) == Ok((s, Done(0))))
  {
    hide Run, FitsAll, After, Insurance.ProcessClaim, ProcessInBatch;
    var before, m := Run(cfg, calls[..k]).s, calls[k].message;
    assert calls[..|calls|] == calls;
    PrefixStep(cfg, calls, k);
    HandlesRejection(before, calls[k].env, m);
    RejectedStays(cfg, calls, k + 1, |calls|, m.id);
    var s := Run(cfg, calls).s;
    forall e: Env, approved: bool
      ensures Insurance.ProcessClaim(s, e, m.id, approved).Err?
      ensures ProcessInBatch(s, e, m.id, approved).Ok? ==> ProcessInBatch(s, e, m.id, approved) == Ok((s, Done(0)))
    {
      DecidedIsRefused(s, e, m.id, approved);
    }
  }

  lemma HandlesRejection(s: State, e: Env, m: Message)
    requires (m.MProcess? || m.MProcessInBatch?) && !m.approved && Handle(s, e, m).Ok? && OpenForReview(s.book, m.id)
    ensures var b := After(s, e, m).book;
            m.id in b.claims && b.claims[m.id].status == ClaimStatus.Rejected && b.claims[m.id].assessor == Some(e.caller)
  {
    RejectionRule(s, e, m.id);
    hide Rejection;
  }

  lemma DecidedIsRefused(s: State, e: Env, c: nat, approved: bool)
    requires c in s.book.claims && s.book.claims[c].status == ClaimStatus.Rejected
    ensures ProcessClaim(s, e, c, approved).Err?
    ensures ProcessInBatch(s, e, c, approved).Ok? ==> ProcessInBatch(s, e, c, approved) == Ok((s, Done(0)))
  {
  }

  // ---------------------------------------------------------------------------------------
  // Reinsurance and the market
  // ---------------------------------------------------------------------------------------

  /** An agreement covers what a payout has above its retention, up to its limit, until it ends. */
  lemma RecoveryMeans(g: Agreement, amount: nat, now: nat)
    ensures Recovery(g, amount, now) > 0 <==> g.active && now <= g.endTime && amount > g.retention && g.limit > 0
    ensures Recovery(g, amount, now) > 0 ==>
              Recovery(g, amount, now) == if g.retention + g.limit <= amount then g.limit else amount - g.retention
  {
  }

  /** The admin registers an agreement with a reinsurer, a limit of at least the retention, a rate of
      up to the whole and something to cover; it starts now, unused, under the next number. */
  lemma AgreementRule(s: State, e: Env, reinsurer: Address, limit: nat, retention: nat, rate: nat, coverages: nat, duration: nat)
    ensures RegisterReinsurance(s, e, reinsurer, limit, retention, rate, coverages, duration).Ok?
            <==> && (e.caller, Admin) in s.cfg.roles && reinsurer != ZERO_ADDRESS && 1 <= retention <= limit
                 && 1 <= rate <= 10_000 && coverages > 0 && duration > 0
    ensures RegisterReinsurance(s, e, reinsurer, limit, retention, rate, coverages, duration).Ok? ==>
              var (s', r), id := RegisterReinsurance(s, e, reinsurer, limit, retention, rate, coverages, duration).value,
                                 s.book.agreementCount + 1;
              && r == Done(id) && id in s'.book.agreements
              && s' == s.(book := s.book.(agreementCount := id, agreements := s.book.agreements[id := s'.book.agreements[id]]))
              && var g := s'.book.agreements[id];
              && g.limit == limit && g.retention == retention && g.active && g.recovered == 0
              && (e.now + duration <= U64_MAX ==> g.endTime == e.now + duration)
  {
  }

  /** The owner of a tradeable token lists it at a positive price, once; nothing but its price changes. */
  lemma ListingRule(s: State, e: Env, id: nat, price: nat)
    ensures ListToken(s, e, id, price).Ok?
            <==> && id > 0 && price > 0 && id in s.book.tokens && s.book.tokens[id].owner == e.caller && s.book.tokens[id].tradeable
    ensures ListToken(s, e, id, price).Ok? ==>
              var (s', r) := ListToken(s, e, id, price).value;
              && r == Done(id) && id in s'.book.listings
              && s'.book.tokens == s.book.tokens[id := s.book.tokens[id].(listed := Some(price))]
              && s' == s.(book := s.book.(tokens := s'.book.tokens, listings := s'.book.listings))
              && s'.book.listings == if id in s.book.listings then s.book.listings else s.book.listings + [id]
  {
  }

  /** Anybody buys a listed token of an active policy for its price; token and policy are then the
      buyer's, off the market, and nobody else's change hands. */
  lemma PurchaseRule(s: State, g: Ledger, e: Env, id: nat)
    requires Good(s, g)
    ensures PurchaseToken(s, e, id).Ok?
            <==> && id in s.book.tokens && s.book.tokens[id].listed.Some? && s.book.tokens[id].listed.value <= e.value
                 && s.book.policies[id].status == Active
    ensures PurchaseToken(s, e, id).Ok? ==>
              var (s', r) := PurchaseToken(s, e, id).value;
              && r == Done(id) && s'.liq == s.liq && s'.cfg == s.cfg && id !in s'.book.listings
              && s'.book.tokens == s.book.tokens[id := s.book.tokens[id].(owner := e.caller, listed := None)]
              && s'.book.policies == s.book.policies[id := s.book.policies[id].(holder := e.caller)]
              && s'.book == s.book.(tokens := s'.book.tokens, policies := s'.book.policies, listings := s'.book.listings,
                                    holderPolicies := s'.book.holderPolicies)
  {
    hide Inv, Reconciled, Counted, Indexed, ClaimsSound;
  }
}
