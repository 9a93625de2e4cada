/** The messages of the insurance contract as functions from storage to storage: pools and
    providers (delegated to Liquidity), policies, claims, reinsurance and the token market. */
module Insurance {
  import opened Common
  import opened Liquidity

  datatype PolicyStatus = Active | Renewed | Expired | Cancelled | Claimed | Suspended

  datatype ClaimStatus = Pending | UnderReview | OracleVerifying | Approved | Rejected | Paid | Disputed

  datatype CoverageType = Fire | Theft | Flood | Earthquake | LiabilityDamage | NaturalDisaster | Comprehensive

  datatype Role = Admin | Assessor | Oracle | Underwriter | Policyholder

  datatype Policy = Policy(
    property: nat, holder: Address, coverage: nat, premium: nat, deductible: nat, endTime: nat,
    status: PolicyStatus, pool: nat, claimsCount: nat, totalClaimed: nat, event: Option<nat>)

  datatype Claim = Claim(
    policy: nat, claimant: Address, amount: nat, status: ClaimStatus, submittedAt: nat,
    processedAt: Option<nat>, payout: nat, assessor: Option<Address>)

  datatype Token = Token(policy: nat, owner: Address, faceValue: nat, tradeable: bool, listed: Option<nat>)

  datatype Agreement = Agreement(limit: nat, retention: nat, endTime: nat, active: bool, recovered: nat)

  datatype Assessment = Assessment(score: nat, validUntil: nat)

  datatype Evidence = Evidence(kind: string, uri: string, hashLength: nat)

  /** Everything the admin and oracle setters write. */
  datatype Config = Config(
    roles: set<(Address, Role)>, assessments: map<nat, Assessment>, paused: bool, feeRate: nat,
    cooldown: nat, oracle: Option<Address>)

  datatype Book = Book(
    policies: map<nat, Policy>, policyCount: nat,
    holderPolicies: map<Address, seq<nat>>, propertyPolicies: map<nat, seq<nat>>,
    claims: map<nat, Claim>, claimCount: nat, policyClaims: map<nat, seq<nat>>,
    tokens: map<nat, Token>, tokenCount: nat, listings: seq<nat>,
    agreements: map<nat, Agreement>, agreementCount: nat,
    lastPayout: map<nat, nat>, lastClaim: map<Address, nat>,
    nonces: map<Address, nat>, usedEvidence: set<(nat, string)>, platformFees: nat)

  datatype State = State(liq: Liq, book: Book, cfg: Config)

  /** Caller, transferred value and block timestamp of a message. */
  datatype Env = Env(caller: Address, value: nat, now: nat)

  type Answer = Result<(State, Receipt), Error>

  const MAX_FEE_RATE: nat := 1000

  /** Set once by the constructor; no message changes it. */
  const MIN_PREMIUM: nat := 1_000_000

  predicate HasRole(cfg: Config, a: Address, role: Role) {
    (a, role) in cfg.roles || (role != Admin && (a, Admin) in cfg.roles)
  }

  function Configure(s: State, cfg: Config): Answer {
    if cfg.feeRate > MAX_FEE_RATE then Err(InvalidParameters) else Ok((s.(cfg := cfg), Done(0)))
  }

  // ---------------------------------------------------------------------------------------
  // Pools and providers
  // ---------------------------------------------------------------------------------------

  function Lift(s: State, reply: Reply): Answer {
    match reply
    case Ok((l, r)) => Ok((s.(liq := l), r))
    case Err(e) => Err(e)
  }

  function CreateRiskPool(s: State, e: Env, named: bool, ratio: nat, threshold: nat): Answer {
    if !HasRole(s.cfg, e.caller, Admin) then Err(Unauthorized)
    else Lift(s, CreatePool(s.liq, named, ratio, threshold))
  }

  function ConfigurePoolVesting(s: State, e: Env, p: nat, cliff: nat, duration: nat, bps: nat): Answer {
    if !HasRole(s.cfg, e.caller, Admin) then Err(Unauthorized)
    else Lift(s, ConfigureVesting(s.liq, p, cliff, duration, bps))
  }

  function DepositLiquidity(s: State, e: Env, p: nat): Answer {
    if s.cfg.paused then Err(ContractPaused)
    else Lift(s, Deposit(s.liq, p, e.caller, e.value, e.now))
  }

  // ---------------------------------------------------------------------------------------
  // Policies
  // ---------------------------------------------------------------------------------------

  function RiskMultiplier(score: nat): nat {
    if score <= 20 then 400 else if score <= 40 then 250 else if score <= 60 then 150 else if score <= 80 then 110 else 80
  }

  function CoverageMultiplier(t: CoverageType): nat {
    match t
    case Fire => 100
    case Theft => 80
    case Flood => 150
    case Earthquake => 200
    case LiabilityDamage => 120
    case NaturalDisaster => 180
    case Comprehensive => 250
  }

  const BASE_RATE: nat := 150

  function AnnualPremium(coverage: nat, score: nat, t: CoverageType): nat {
    SatMul(SatMul(SatMul(coverage, BASE_RATE), RiskMultiplier(score)), CoverageMultiplier(t)) / 1_000_000_000_000
  }

  function Deductible(coverage: nat, score: nat): nat {
    SatMul(SatMul(coverage, 500), RiskMultiplier(score)) / 10_000_000
  }

  function Fee(paid: nat, rate: nat): nat {
    SatMul(paid, rate) / BPS
  }

  function Exposure(capital: nat, ratio: nat): nat {
    SatMul(capital, ratio) / BPS
  }

  /** Stores a policy under the next number and lists it by holder and by property. */
  function Enrol(b: Book, policy: Policy): Book {
    var id := b.policyCount + 1;
    b.(policyCount := id,
       policies := b.policies[id := policy],
       holderPolicies := b.holderPolicies[policy.holder := ListAt(b.holderPolicies, policy.holder) + [id]],
       propertyPolicies := b.propertyPolicies[policy.property := ListAt(b.propertyPolicies, policy.property) + [id]])
  }

  function Mint(b: Book, policyId: nat, owner: Address, faceValue: nat): Book {
    var id := b.tokenCount + 1;
    b.(tokenCount := id, tokens := b.tokens[id := Token(policyId, owner, faceValue, true, None)])
  }

  /** Issues a policy, mints its token and keeps the platform's fee. */
  function Issue(b: Book, policy: Policy, fee: nat): Book {
    Mint(Enrol(b.(platformFees := b.platformFees + fee), policy), b.policyCount + 1, policy.holder, policy.coverage)
  }

  /** Why an application is refused, if it is. */
  function ApplicationFault(s: State, e: Env, property: nat, t: CoverageType, coverage: nat, p: nat,
                            duration: nat, event: Option<nat>): Option<Error> {
    if event == Some(0) then Some(InvalidParameters)
    else if s.cfg.paused then Some(ContractPaused)
    else if property == 0 || coverage == 0 || duration == 0 then Some(InvalidParameters)
    else if p !in s.liq.pools || !s.liq.pools[p].isActive then Some(PoolNotFound)
    else
      var q := s.liq.pools[p];
      if coverage > Exposure(q.totalCapital, q.maxCoverageRatio) then Some(InsufficientPoolFunds)
      else if property !in s.cfg.assessments || e.now > s.cfg.assessments[property].validUntil then
        Some(PropertyNotInsurable)
      else
        var premium := AnnualPremium(coverage, s.cfg.assessments[property].score, t);
        if premium < MIN_PREMIUM then Some(PremiumTooLow)
        else if e.value < premium then Some(InsufficientPremium)
        else if coverage > Exposure(SatAdd(q.availableCapital, PremiumShare(s.cfg, e.value)), q.maxCoverageRatio) then
          Some(InsufficientPoolFunds)
        else None
  }

  /** What a payment leaves for the pool once the platform fee is taken. */
  function PremiumShare(cfg: Config, paid: nat): nat {
    SatSub(paid, Fee(paid, cfg.feeRate))
  }

  /** Takes a new policy's premium share into its pool and issues it. */
  function Underwrite(s: State, policy: Policy, fee: nat, share: nat): State
    requires policy.pool in s.liq.pools
  {
    var q := s.liq.pools[policy.pool];
    var q' := TakePremium(q.(activePolicies := q.activePolicies + 1), share);
    s.(liq := s.liq.(pools := s.liq.pools[policy.pool := q']), book := Issue(s.book, policy, fee))
  }

  /** A standard policy, or a parametric one when an event is given. */
  function CreatePolicy(s: State, e: Env, property: nat, t: CoverageType, coverage: nat, p: nat,
                        duration: nat, event: Option<nat>): Answer {
    var fault := ApplicationFault(s, e, property, t, coverage, p, duration, event);
    if fault.Some? then Err(fault.value)
    else
      var score, share := s.cfg.assessments[property].score, PremiumShare(s.cfg, e.value);
      var policy := Policy(property, e.caller, coverage, e.value, Deductible(coverage, score),
                           SatTime(e.now, duration), Active, p, 0, 0, event);
      Ok((Underwrite(s, policy, Fee(e.value, s.cfg.feeRate), share),
          PremiumTaken(p, s.book.policyCount + 1, share, Accrued(s.liq.pools[p], share))))
  }

  function RenewPolicy(s: State, e: Env, id: nat, duration: nat): Answer {
    if duration == 0 then Err(InvalidParameters)
    else if e.value == 0 then Err(InsufficientPremium)
    else if id !in s.book.policies then Err(PolicyNotFound)
    else
      var policy := s.book.policies[id];
      if policy.holder != e.caller then Err(Unauthorized)
      else if policy.status != Active && policy.status != Renewed then Err(PolicyInactive)
      else if policy.pool !in s.liq.pools then Err(PoolNotFound)
      else
        var q := s.liq.pools[policy.pool];
        var share := PremiumShare(s.cfg, e.value);
        var policy' := policy.(endTime := SatTime(policy.endTime, duration),
                               premium := SatAdd(policy.premium, e.value), status := Renewed);
        Ok((s.(liq := s.liq.(pools := s.liq.pools[policy.pool := TakePremium(q, share)]),
               book := s.book.(policies := s.book.policies[id := policy'])),
            PremiumTaken(policy.pool, id, share, Accrued(q, share))))
  }

  /** One policy fewer counts as active in its pool. */
  function EndIn(l: Liq, p: nat): Liq {
    if p in l.pools then l.(pools := l.pools[p := EndPolicy(l.pools[p])]) else l
  }

  function CancelPolicy(s: State, e: Env, id: nat): Answer {
    if id !in s.book.policies then Err(PolicyNotFound)
    else
      var policy := s.book.policies[id];
      if e.caller != policy.holder && !HasRole(s.cfg, e.caller, Admin) then Err(Unauthorized)
      else if policy.status != Active then Err(PolicyInactive)
      else
        Ok((s.(liq := EndIn(s.liq, policy.pool),
               book := s.book.(policies := s.book.policies[id := policy.(status := Cancelled)])),
            Done(id)))
  }

  predicate Overdue(policy: Policy, now: nat) {
    policy.status == Active && now > policy.endTime
  }

  /** Scans policies from `i` on and expires at most `left` overdue ones; counts them. */
  function ExpireFrom(l: Liq, policies: map<nat, Policy>, i: nat, count: nat, left: nat, now: nat)
      : (Liq, map<nat, Policy>, nat)
    decreases count + 1 - i
  {
    if i > count || left == 0 then (l, policies, 0)
    else if i in policies && Overdue(policies[i], now) then
      var (l', policies', n) :=
        ExpireFrom(EndIn(l, policies[i].pool), policies[i := policies[i].(status := Expired)],
                   i + 1, count, left - 1, now);
      (l', policies', n + 1)
    else ExpireFrom(l, policies, i + 1, count, left, now)
  }

  function ExpirePolicies(s: State, e: Env, maxScan: nat): Answer {
    var limit := if maxScan == 0 then s.book.policyCount else maxScan;
    var (l, policies, n) := ExpireFrom(s.liq, s.book.policies, 1, s.book.policyCount, limit, e.now);
    Ok((s.(liq := l, book := s.book.(policies := policies)), Done(n)))
  }

  // ---------------------------------------------------------------------------------------
  // Claims
  // ---------------------------------------------------------------------------------------

  predicate StartsWith(s: string, prefix: string) {
    prefix <= s
  }

  function EvidenceFault(ev: Evidence): Option<Error> {
    if ev.kind == "" then Some(EvidenceNonceEmpty)
    else if !StartsWith(ev.uri, "ipfs://") && !StartsWith(ev.uri, "https://") then Some(EvidenceInvalidUriScheme)
    else if ev.hashLength != 32 then Some(EvidenceInvalidHashLength)
    else None
  }

  /** Event number of the parametric test vector that is approved on submission. */
  const AUTO_APPROVED_EVENT: nat := 101

  function FileClaim(b: Book, id: nat, claim: Claim): Book
    requires claim.policy in b.policies
  {
    var policy := b.policies[claim.policy];
    b.(claimCount := id,
       claims := b.claims[id := claim],
       policyClaims := b.policyClaims[claim.policy := ListAt(b.policyClaims, claim.policy) + [id]],
       policies := b.policies[claim.policy := policy.(claimsCount := policy.claimsCount + 1)])
  }

  /** Uses up a submission's evidence and nonce and starts its caller's cooldown. */
  function Logged(b: Book, policyId: nat, kind: string, e: Env, nonce: nat): Book {
    b.(usedEvidence := b.usedEvidence + {(policyId, kind)},
       lastClaim := b.lastClaim[e.caller := e.now],
       nonces := b.nonces[e.caller := nonce + 1])
  }

  /** Why a claim is refused, if it is. */
  function SubmitFault(s: State, e: Env, policyId: nat, amount: nat, ev: Evidence, nonce: nat): Option<Error> {
    var b := s.book;
    if s.cfg.paused then Some(ContractPaused)
    else if nonce != CountAt(b.nonces, e.caller) then Some(NonceAlreadyUsed)
    else if amount == 0 then Some(ZeroAmount)
    else if EvidenceFault(ev).Some? then EvidenceFault(ev)
    else if (policyId, ev.kind) in b.usedEvidence then Some(NonceAlreadyUsed)
    else if policyId !in b.policies then Some(PolicyNotFound)
    else
      var policy := b.policies[policyId];
      if policy.holder != e.caller then Some(Unauthorized)
      else if policy.status != Active then Some(PolicyInactive)
      else if e.now > policy.endTime then Some(PolicyExpired)
      else if amount > SatSub(policy.coverage, policy.totalClaimed) then Some(ClaimExceedsCoverage)
      else if SatSub(e.now, CountAt(b.lastPayout, policy.property)) < s.cfg.cooldown then Some(CooldownPeriodActive)
      else if SatSub(e.now, CountAt(b.lastClaim, e.caller)) < s.cfg.cooldown then Some(CooldownPeriodActive)
      else None
  }

  function SubmitClaim(s: State, e: Env, policyId: nat, amount: nat, ev: Evidence, nonce: nat): Answer {
    var b, fault := s.book, SubmitFault(s, e, policyId, amount, ev, nonce);
    if fault.Some? then Err(fault.value)
    else
      var id := b.claimCount + 1;
      var filed := FileClaim(b, id, Claim(policyId, e.caller, amount, Pending, e.now, None, 0, None));
      if s.cfg.oracle.Some? && b.policies[policyId].event == Some(AUTO_APPROVED_EVENT) then
        ProcessClaim(s.(book := filed), e, id, true)
      else
        Ok((s.(book := Logged(filed, policyId, ev.kind, e, nonce)), Done(id)))
  }

  /** Recovery an agreement would contribute to a payout. */
  function Recovery(g: Agreement, amount: nat, now: nat): nat {
    var excess := SatSub(amount, g.retention);
    if !g.active || now > g.endTime then 0
    else if excess < g.limit then excess else g.limit
  }

  /** Books the recovery on the first agreement from `i` on that contributes anything. */
  function RecoverFrom(agreements: map<nat, Agreement>, i: nat, count: nat, amount: nat, now: nat): map<nat, Agreement>
    decreases count + 1 - i
  {
    if i > count then agreements
    else if i in agreements && Recovery(agreements[i], amount, now) > 0 then
      var g := agreements[i];
      agreements[i := g.(recovered := g.recovered + Recovery(g, amount, now))]
    else RecoverFrom(agreements, i + 1, count, amount, now)
  }

  /** A payout above the pool's threshold books a recovery first. */
  function Recovered(s: State, q: Pool, amount: nat, now: nat): State {
    if amount > q.reinsuranceThreshold then
      s.(book := s.book.(agreements := RecoverFrom(s.book.agreements, 1, s.book.agreementCount, amount, now)))
    else s
  }

  /** Debits the pool, adds the payout to the policy and marks the claim paid. */
  function PayOut(s: State, id: nat, policyId: nat, amount: nat, now: nat): State
    requires policyId in s.book.policies && s.book.policies[policyId].pool in s.liq.pools
  {
    var policy := s.book.policies[policyId];
    var total := policy.totalClaimed + amount;
    var policy' := policy.(totalClaimed := total,
                           status := if total >= policy.coverage then Claimed else policy.status);
    var claims := if id in s.book.claims then s.book.claims[id := s.book.claims[id].(status := Paid)]
                  else s.book.claims;
    s.(liq := s.liq.(pools := s.liq.pools[policy.pool := PayClaim(s.liq.pools[policy.pool], amount)]),
       book := s.book.(policies := s.book.policies[policyId := policy'],
                       lastPayout := s.book.lastPayout[policy.property := now],
                       claims := claims))
  }

  /** Pays an approved claim. On an error the recovery already booked stays in the state
      returned; a reverting caller drops it. */
  function ExecutePayout(s: State, id: nat, policyId: nat, amount: nat, now: nat): (State, Result<Receipt, Error>) {
    if amount == 0 then (s, Ok(Done(id)))
    else if policyId !in s.book.policies then (s, Err(PolicyNotFound))
    else
      var p := s.book.policies[policyId].pool;
      if p !in s.liq.pools then (s, Err(PoolNotFound))
      else
        var q := s.liq.pools[p];
        var s1 := Recovered(s, q, amount, now);
        if q.availableCapital < amount then (s1, Err(InsufficientPoolFunds))
        else (PayOut(s1, id, policyId, amount, now), Ok(ClaimPaid(p, amount)))
  }

  /** What an approved claim pays: the claimed amount less the deductible. */
  function PayoutOf(b: Book, id: nat): nat
    requires id in b.claims && b.claims[id].policy in b.policies
  {
    SatSub(b.claims[id].amount, b.policies[b.claims[id].policy].deductible)
  }

  function Approval(claim: Claim, e: Env, payout: nat): Claim {
    claim.(assessor := Some(e.caller), processedAt := Some(e.now), payout := payout, status := Approved)
  }

  function Rejection(claim: Claim, e: Env): Claim {
    claim.(assessor := Some(e.caller), processedAt := Some(e.now), status := Rejected)
  }

  function SetClaim(s: State, id: nat, claim: Claim): State {
    s.(book := s.book.(claims := s.book.claims[id := claim]))
  }

  function ReviewFault(b: Book, id: nat, approved: bool): Option<Error> {
    if id !in b.claims then Some(ClaimNotFound)
    else if b.claims[id].status != Pending && b.claims[id].status != UnderReview then Some(ClaimAlreadyProcessed)
    else if approved && b.claims[id].policy !in b.policies then Some(PolicyNotFound)
    else None
  }

  /** Stores the approval of a claim, then pays it. */
  function ApproveAndPay(s: State, e: Env, id: nat): (State, Result<Receipt, Error>)
    requires ReviewFault(s.book, id, true).None?
  {
    var claim, payout := s.book.claims[id], PayoutOf(s.book, id);
    ExecutePayout(SetClaim(s, id, Approval(claim, e, payout)), id, claim.policy, payout, e.now)
  }

  /** Reviews one claim. An error after the approval was stored leaves it stored. */
  function ProcessClaimInner(s: State, e: Env, id: nat, approved: bool): (State, Result<Receipt, Error>) {
    if ReviewFault(s.book, id, approved).Some? then (s, Err(ReviewFault(s.book, id, approved).value))
    else if !approved then (SetClaim(s, id, Rejection(s.book.claims[id], e)), Ok(Done(id)))
    else ApproveAndPay(s, e, id)
  }

  function ProcessClaim(s: State, e: Env, id: nat, approved: bool): Answer {
    if s.cfg.paused then Err(ContractPaused)
    else if !HasRole(s.cfg, e.caller, Assessor) then Err(Unauthorized)
    else
      match ProcessClaimInner(s, e, id, approved)
      case (s', Ok(r)) => Ok((s', r))
      case (_, Err(error)) => Err(error)
  }

  /** One claim of a batch: the error is reported but nothing is rolled back. */
  function ProcessInBatch(s: State, e: Env, id: nat, approved: bool): Answer {
    if !HasRole(s.cfg, e.caller, Assessor) then Err(Unauthorized)
    else
      match ProcessClaimInner(s, e, id, approved)
      case (s', Ok(r)) => Ok((s', r))
      case (s', Err(_)) => Ok((s', Done(0)))
  }

  function RegisterReinsurance(s: State, e: Env, reinsurer: Address, limit: nat, retention: nat,
                               cededRate: nat, coverages: nat, duration: nat): Answer {
    if !HasRole(s.cfg, e.caller, Admin) then Err(Unauthorized)
    else if reinsurer == ZERO_ADDRESS || limit == 0 || retention == 0 || retention > limit
            || cededRate == 0 || cededRate > BPS || coverages == 0 || duration == 0 then Err(InvalidParameters)
    else
      var id := s.book.agreementCount + 1;
      var g := Agreement(limit, retention, SatTime(e.now, duration), true, 0);
      Ok((s.(book := s.book.(agreementCount := id, agreements := s.book.agreements[id := g])), Done(id)))
  }

  // ---------------------------------------------------------------------------------------
  // Token market
  // ---------------------------------------------------------------------------------------

  function ListToken(s: State, e: Env, id: nat, price: nat): Answer {
    var b := s.book;
    if id == 0 || price == 0 then Err(InvalidParameters)
    else if id !in b.tokens then Err(TokenNotFound)
    else if b.tokens[id].owner != e.caller then Err(Unauthorized)
    else if !b.tokens[id].tradeable then Err(InvalidParameters)
    else
      Ok((s.(book := b.(tokens := b.tokens[id := b.tokens[id].(listed := Some(price))],
                        listings := if id in b.listings then b.listings else b.listings + [id])),
          Done(id)))
  }

  /** Hands a policy and its token from seller to buyer. */
  function Transfer(b: Book, id: nat, buyer: Address): Book
    requires id in b.tokens && b.tokens[id].policy in b.policies
  {
    var token := b.tokens[id];
    var seller, k := token.owner, token.policy;
    var sold := b.holderPolicies[seller := Without(ListAt(b.holderPolicies, seller), k)];
    b.(policies := b.policies[k := b.policies[k].(holder := buyer)],
       holderPolicies := sold[buyer := ListAt(sold, buyer) + [k]],
       tokens := b.tokens[id := token.(owner := buyer, listed := None)],
       listings := Without(b.listings, id))
  }

  function PurchaseToken(s: State, e: Env, id: nat): Answer {
    var b := s.book;
    if id !in b.tokens then Err(TokenNotFound)
    else if b.tokens[id].listed.None? then Err(InvalidParameters)
    else if e.value < b.tokens[id].listed.value then Err(InsufficientPremium)
    else if b.tokens[id].policy !in b.policies then Err(PolicyNotFound)
    else if b.policies[b.tokens[id].policy].status != Active then Err(PolicyInactive)
    else Ok((s.(book := Transfer(b, id, e.caller)), Done(id)))
  }

  // ---------------------------------------------------------------------------------------
  // Runs
  // ---------------------------------------------------------------------------------------

  datatype Message =
    | MConfigure(cfg: Config)
    | MCreatePool(named: bool, ratio: nat, threshold: nat)
    | MConfigureVesting(p: nat, cliff: nat, duration: nat, bps: nat)
    | MDeposit(p: nat)
    | MWithdraw(p: nat, amount: nat)
    | MClaimRewards(p: nat)
    | MReinvest(p: nat)
    | MClaimVested(p: nat)
    | MCreatePolicy(property: nat, kind: CoverageType, coverage: nat, p: nat, duration: nat, event: Option<nat>)
    | MRenew(id: nat, duration: nat)
    | MCancel(id: nat)
    | MExpire(maxScan: nat)
    | MSubmit(id: nat, amount: nat, evidence: Evidence, nonce: nat)
    | MProcess(id: nat, approved: bool)
    | MProcessInBatch(id: nat, approved: bool)
    | MReinsure(reinsurer: Address, limit: nat, retention: nat, cededRate: nat, coverages: nat, duration: nat)
    | MList(id: nat, price: nat)
    | MPurchase(id: nat)

  function Handle(s: State, e: Env, m: Message): Answer {
    match m
    case MConfigure(cfg) => Configure(s, cfg)
    case MCreatePool(named, ratio, threshold) => CreateRiskPool(s, e, named, ratio, threshold)
    case MConfigureVesting(p, cliff, duration, bps) => ConfigurePoolVesting(s, e, p, cliff, duration, bps)
    case MDeposit(p) => DepositLiquidity(s, e, p)
    case MWithdraw(p, amount) => Lift(s, Withdraw(s.liq, p, e.caller, amount, e.now))
    case MClaimRewards(p) => Lift(s, ClaimRewards(s.liq, p, e.caller, e.now))
    case MReinvest(p) => Lift(s, Reinvest(s.liq, p, e.caller))
    case MClaimVested(p) => Lift(s, ClaimVested(s.liq, p, e.caller, e.now))
    case MCreatePolicy(property, kind, coverage, p, duration, event) =>
      CreatePolicy(s, e, property, kind, coverage, p, duration, event)
    case MRenew(id, duration) => RenewPolicy(s, e, id, duration)
    case MCancel(id) => CancelPolicy(s, e, id)
    case MExpire(maxScan) => ExpirePolicies(s, e, maxScan)
    case MSubmit(id, amount, evidence, nonce) => SubmitClaim(s, e, id, amount, evidence, nonce)
    case MProcess(id, approved) => ProcessClaim(s, e, id, approved)
    case MProcessInBatch(id, approved) => ProcessInBatch(s, e, id, approved)
    case MReinsure(reinsurer, limit, retention, rate, coverages, duration) =>
      RegisterReinsurance(s, e, reinsurer, limit, retention, rate, coverages, duration)
    case MList(id, price) => ListToken(s, e, id, price)
    case MPurchase(id) => PurchaseToken(s, e, id)
  }

  const NO_LIQ: Liq := Liq(map[], 0, map[], map[])

  const NO_BOOK: Book :=
    Book(map[], 0, map[], map[], map[], 0, map[], map[], 0, [], map[], 0, map[], map[], map[], {}, 0)

  function Genesis(cfg: Config): State {
    State(NO_LIQ, NO_BOOK, cfg)
  }
}
